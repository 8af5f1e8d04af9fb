/** The replayed conversation: response items are pruned at the latest compaction and normalised so
    that tool calls and tool outputs always come in pairs. */
module ContextItems {
  import opened Wrappers

  datatype Role = User | Developer | System | Assistant | OtherRole

  datatype Kind = ToolCall | ToolOutput | Compaction | Reasoning | Message(role: Role) | OtherKind

  /** `callId` is None for a missing, empty or non-string call_id; `body` is the rest of the payload. */
  datatype Item = Item(kind: Kind, callId: Option<string>, body: string)

  predicate IsTool(item: Item) {
    item.kind.ToolCall? || item.kind.ToolOutput?
  }

  predicate Replayable(item: Item) {
    match item.kind
    case ToolCall => item.callId.Some?
    case ToolOutput => item.callId.Some?
    case Compaction => true
    case Reasoning => true
    case Message(role) => !role.OtherRole?
    case OtherKind => false
  }

  predicate TrueContext(item: Item) {
    item.kind.Message? && (item.kind.role.User? || item.kind.role.Developer? || item.kind.role.System?)
  }

  // --- Subsequences and closure ---

  /** `t` is obtained from `s` by leaving out items. */
  predicate Sub(t: seq<Item>, s: seq<Item>) {
    t == [] ||
    (s != [] && ((t[|t| - 1] == s[|s| - 1] && Sub(t[..|t| - 1], s[..|s| - 1])) || Sub(t, s[..|s| - 1])))
  }

  predicate HasKind(items: seq<Item>, kind: Kind, id: Option<string>) {
    exists i :: 0 <= i < |items| && items[i].kind == kind && items[i].callId == id
  }

  /** Every call has an output and every output a call. */
  predicate Closed(items: seq<Item>) {
    forall i :: 0 <= i < |items| && IsTool(items[i]) ==>
      HasKind(items, ToolCall, items[i].callId) && HasKind(items, ToolOutput, items[i].callId)
  }

  predicate AllReplayable(items: seq<Item>) {
    forall i :: 0 <= i < |items| ==> Replayable(items[i])
  }

  // --- Normalisation ---

  function Ids(items: seq<Item>, kind: Kind): (r: set<string>)
    ensures forall id :: id in r <==> HasKind(items, kind, Some(id))
  {
    set i | 0 <= i < |items| && items[i].kind == kind && items[i].callId.Some? :: items[i].callId.value
  }

  function Paired(items: seq<Item>): set<string> {
    Ids(items, ToolCall) * Ids(items, ToolOutput)
  }

  predicate Keeps(paired: set<string>, item: Item) {
    Replayable(item) && (IsTool(item) ==> item.callId.value in paired)
  }

  function Select(items: seq<Item>, paired: set<string>): seq<Item> {
    if items == [] then []
    else
      var n := |items| - 1;
      Select(items[..n], paired) + if Keeps(paired, items[n]) then [items[n]] else []
  }

  function Normalize(items: seq<Item>): seq<Item> {
    Select(items, Paired(items))
  }

  lemma {:induction false} SelectIsSub(items: seq<Item>, paired: set<string>)
    ensures Sub(Select(items, paired), items)
  {
    if items != [] {
      var n := |items| - 1;
      SelectIsSub(items[..n], paired);
      if Keeps(paired, items[n]) {
        assert Select(items, paired)[..|Select(items, paired)| - 1] == Select(items[..n], paired);
      } else {
        assert Select(items, paired) == Select(items[..n], paired);
      }
    }
  }

  lemma {:induction false} SelectedExactly(items: seq<Item>, paired: set<string>, item: Item)
    ensures item in Select(items, paired) <==> item in items && Keeps(paired, item)
  {
    if items != [] {
      var n := |items| - 1;
      SelectedExactly(items[..n], paired, item);
      assert items == items[..n] + [items[n]];
    }
  }

  lemma {:induction false} SelectAll(items: seq<Item>, paired: set<string>)
    requires forall i :: 0 <= i < |items| ==> Keeps(paired, items[i])
    ensures Select(items, paired) == items
  {
    if items != [] {
      var n := |items| - 1;
      SelectAll(items[..n], paired);
      assert items == items[..n] + [items[n]];
    }
  }

  lemma HasKindOfMember(items: seq<Item>, item: Item)
    requires item in items
    ensures HasKind(items, item.kind, item.callId)
  {
  }

  /** A paired id keeps its calls and its outputs. */
  lemma PairSurvives(items: seq<Item>, id: string, kind: Kind)
    requires id in Paired(items) && (kind.ToolCall? || kind.ToolOutput?)
    ensures HasKind(Normalize(items), kind, Some(id))
  {
    assert HasKind(items, kind, Some(id));
    var i :| 0 <= i < |items| && items[i].kind == kind && items[i].callId == Some(id);
    SelectedExactly(items, Paired(items), items[i]);
    HasKindOfMember(Normalize(items), items[i]);
  }

  /** Normalisation yields a replayable subsequence in which calls and outputs are paired. */
  lemma NormalizedIsClosed(items: seq<Item>)
    ensures Sub(Normalize(items), items) && AllReplayable(Normalize(items)) && Closed(Normalize(items))
  {
    var r := Normalize(items);
    SelectIsSub(items, Paired(items));
    forall i | 0 <= i < |r|
      ensures Replayable(r[i])
      ensures IsTool(r[i]) ==> HasKind(r, ToolCall, r[i].callId) && HasKind(r, ToolOutput, r[i].callId)
    {
      SelectedExactly(items, Paired(items), r[i]);
      if IsTool(r[i]) {
        PairSurvives(items, r[i].callId.value, ToolCall);
        PairSurvives(items, r[i].callId.value, ToolOutput);
      }
    }
  }

  lemma {:induction false} SubMembers(t: seq<Item>, s: seq<Item>, item: Item)
    requires Sub(t, s) && item in t
    ensures item in s
    decreases |s|
  {
    var n := |s| - 1;
    if t[|t| - 1] == s[n] && Sub(t[..|t| - 1], s[..n]) {
      if item != s[n] {
        SubMembers(t[..|t| - 1], s[..n], item);
      }
    } else {
      SubMembers(t, s[..n], item);
    }
  }

  lemma SubHasKind(t: seq<Item>, s: seq<Item>, kind: Kind, id: Option<string>)
    requires Sub(t, s) && HasKind(t, kind, id)
    ensures HasKind(s, kind, id)
  {
  }

  lemma {:induction false} SubOfSelect(t: seq<Item>, s: seq<Item>, paired: set<string>)
    requires Sub(t, s) && forall i :: 0 <= i < |t| ==> Keeps(paired, t[i])
    ensures Sub(t, Select(s, paired))
    decreases |s|
  {
    if t != [] {
      var m, n := |t| - 1, |s| - 1;
      var r := Select(s, paired);
      if t[m] == s[n] && Sub(t[..m], s[..n]) {
        SubOfSelect(t[..m], s[..n], paired);
        assert r[..|r| - 1] == Select(s[..n], paired);
      } else {
        SubOfSelect(t, s[..n], paired);
        if Keeps(paired, s[n]) {
          assert r[..|r| - 1] == Select(s[..n], paired);
        } else {
          assert r == Select(s[..n], paired);
        }
      }
    }
  }

  /** It is the largest one: every closed replayable subsequence is a subsequence of it. */
  lemma NormalizedIsLargest(t: seq<Item>, items: seq<Item>)
    requires Sub(t, items) && AllReplayable(t) && Closed(t)
    ensures Sub(t, Normalize(items))
  {
    forall i | 0 <= i < |t|
      ensures Keeps(Paired(items), t[i])
    {
      if IsTool(t[i]) {
        SubHasKind(t, items, ToolCall, t[i].callId);
        SubHasKind(t, items, ToolOutput, t[i].callId);
      }
    }
    SubOfSelect(t, items, Paired(items));
  }

  /** Closed replayable lists, and only those, are left as they are; in particular normalising twice
      is normalising once. */
  lemma NormalizeFixesIff(items: seq<Item>)
    ensures Normalize(items) == items <==> AllReplayable(items) && Closed(items)
    ensures Normalize(Normalize(items)) == Normalize(items)
  {
    NormalizedIsClosed(items);
    if AllReplayable(items) && Closed(items) {
      ClosedIsFixed(items);
    }
    ClosedIsFixed(Normalize(items));
  }

  lemma ClosedIsFixed(items: seq<Item>)
    requires AllReplayable(items) && Closed(items)
    ensures Normalize(items) == items
  {
    SelectAll(items, Paired(items));
  }

  /** What may be replayed at all: tool items with an id, compactions, reasoning, and messages of the
      assistant, the user, the developer or the system. */
  predicate MayStay(item: Item) {
    if item.kind == ToolCall || item.kind == ToolOutput then item.callId != None
    else item.kind in {Compaction, Reasoning, Message(Assistant), Message(User), Message(Developer), Message(System)}
  }

  /** The other half of a tool item is in the list. */
  predicate HasPartner(items: seq<Item>, item: Item) {
    (item.kind == ToolCall ==> HasKind(items, ToolOutput, item.callId)) &&
    (item.kind == ToolOutput ==> HasKind(items, ToolCall, item.callId))
  }

  lemma {:induction false} SelectCounts(items: seq<Item>, paired: set<string>, item: Item)
    ensures multiset(Select(items, paired))[item] == if Keeps(paired, item) then multiset(items)[item] else 0
  {
    if items != [] {
      var n := |items| - 1;
      SelectCounts(items[..n], paired, item);
      assert items == items[..n] + [items[n]];
    }
  }

  /** An item keeps all its occurrences if it may be replayed and has its partner, and none otherwise. */
  lemma NormalizedExactly(items: seq<Item>, item: Item)
    ensures multiset(Normalize(items))[item] ==
            if MayStay(item) && HasPartner(items, item) then multiset(items)[item] else 0
  {
    SelectCounts(items, Paired(items), item);
    if item in items {
      HasKindOfMember(items, item);
    }
  }

  // --- The prompt ---

  function LatestCompaction(items: seq<Item>): (r: Option<nat>)
    ensures r.Some? ==> r.value < |items| && items[r.value].kind.Compaction? &&
                        forall i :: r.value < i < |items| ==> !items[i].kind.Compaction?
    ensures r.None? ==> forall i :: 0 <= i < |items| ==> !items[i].kind.Compaction?
  {
    if items == [] then None
    else if items[|items| - 1].kind.Compaction? then Some(|items| - 1)
    else LatestCompaction(items[..|items| - 1])
  }

  function TrueMessages(items: seq<Item>): seq<Item> {
    if items == [] then []
    else TrueMessages(items[..|items| - 1]) + if TrueContext(items[|items| - 1]) then [items[|items| - 1]] else []
  }

  function Prune(items: seq<Item>): seq<Item> {
    var c := LatestCompaction(items);
    if c.None? then items else TrueMessages(items[..c.value]) + items[c.value..]
  }

  predicate Excludes(excluded: set<string>, item: Item) {
    item.callId.Some? && item.callId.value in excluded
  }

  function Without(items: seq<Item>, excluded: set<string>): seq<Item> {
    if items == [] then []
    else
      var n := |items| - 1;
      Without(items[..n], excluded) + if Excludes(excluded, items[n]) then [] else [items[n]]
  }

  function ForPrompt(history: seq<Item>, extra: seq<Item>, excluded: set<string>): seq<Item> {
    Normalize(Without(Prune(history) + extra, excluded))
  }

  lemma {:induction false} WithoutExactly(items: seq<Item>, excluded: set<string>, item: Item)
    ensures item in Without(items, excluded) <==> item in items && !Excludes(excluded, item)
  {
    if items != [] {
      var n := |items| - 1;
      WithoutExactly(items[..n], excluded, item);
      assert items == items[..n] + [items[n]];
    }
  }

  lemma {:induction false} TrueMessagesExactly(items: seq<Item>, item: Item)
    ensures item in TrueMessages(items) <==> item in items && TrueContext(item)
  {
    if items != [] {
      var n := |items| - 1;
      TrueMessagesExactly(items[..n], item);
      assert items == items[..n] + [items[n]];
    }
  }

  /** Whatever the window, the exclusions and the extra items: the prompt is closed, holds no excluded
      call, and of the history before the latest compaction only user, developer and system messages. */
  lemma PromptIsClosedAndPruned(history: seq<Item>, extra: seq<Item>, excluded: set<string>, item: Item)
    ensures Closed(ForPrompt(history, extra, excluded)) && AllReplayable(ForPrompt(history, extra, excluded))
    ensures item in ForPrompt(history, extra, excluded) ==>
              !Excludes(excluded, item) &&
              var c := LatestCompaction(history);
              (item in extra || item in (if c.Some? then history[c.value..] else history) ||
               (c.Some? && item in history[..c.value] && TrueContext(item)))
  {
    var kept := Without(Prune(history) + extra, excluded);
    NormalizedIsClosed(kept);
    if item in ForPrompt(history, extra, excluded) {
      SelectedExactly(kept, Paired(kept), item);
      WithoutExactly(Prune(history) + extra, excluded, item);
      if LatestCompaction(history).Some? {
        TrueMessagesExactly(history[..LatestCompaction(history).value], item);
      }
    }
  }

  /** And nothing else is lost: a replayable item that is not excluded stays unless it is a tool item
      whose partner is missing. */
  lemma PromptKeeps(history: seq<Item>, extra: seq<Item>, excluded: set<string>, item: Item)
    requires item in Prune(history) + extra && Replayable(item) && !Excludes(excluded, item)
    requires IsTool(item) ==>
               HasKind(Prune(history) + extra, ToolCall, item.callId) &&
               HasKind(Prune(history) + extra, ToolOutput, item.callId)
    ensures item in ForPrompt(history, extra, excluded)
  {
    var all := Prune(history) + extra;
    var kept := Without(all, excluded);
    WithoutExactly(all, excluded, item);
    if IsTool(item) {
      KindKept(all, excluded, ToolCall, item.callId);
      KindKept(all, excluded, ToolOutput, item.callId);
    }
    SelectedExactly(kept, Paired(kept), item);
  }

  lemma {:induction false} WithoutCounts(items: seq<Item>, excluded: set<string>, item: Item)
    ensures multiset(Without(items, excluded))[item] == if Excludes(excluded, item) then 0 else multiset(items)[item]
  {
    if items != [] {
      var n := |items| - 1;
      WithoutCounts(items[..n], excluded, item);
      assert items == items[..n] + [items[n]];
    }
  }

  lemma {:induction false} TrueMessagesCount(items: seq<Item>, item: Item)
    ensures multiset(TrueMessages(items))[item] ==
            if item.kind in {Message(User), Message(Developer), Message(System)} then multiset(items)[item] else 0
  {
    if items != [] {
      var n := |items| - 1;
      TrueMessagesCount(items[..n], item);
      assert items == items[..n] + [items[n]];
    }
  }

  /** The position of the latest compaction, or the beginning if there is none. */
  predicate IsStart(history: seq<Item>, start: nat) {
    start <= |history| && (start > 0 ==> start < |history|) &&
    (forall i :: start < i < |history| ==> history[i].kind != Compaction) &&
    (start > 0 ==> history[start].kind == Compaction)
  }

  /** Pruning keeps everything from the start on, and before that the messages of user, developer and
      system. */
  lemma PruneCounts(history: seq<Item>, start: nat, item: Item)
    requires IsStart(history, start)
    ensures multiset(Prune(history))[item] ==
            multiset(history[start..])[item] +
            if item.kind in {Message(User), Message(Developer), Message(System)}
            then multiset(history[..start])[item] else 0
  {
    PruneSplits(history, [], start);
    TrueMessagesCount(history[..start], item);
  }

  lemma PruneSplits(history: seq<Item>, extra: seq<Item>, start: nat)
    requires IsStart(history, start)
    ensures Prune(history) == TrueMessages(history[..start]) + history[start..]
    ensures Prune(history) + extra == TrueMessages(history[..start]) + (history[start..] + extra)
    ensures history + extra == history[..start] + (history[start..] + extra)
  {
    var c := LatestCompaction(history);
    assert c.Some? ==> c.value == start;
    assert history[0..] == history && TrueMessages(history[..0]) == [];
  }

  /** The whole prompt, occurrence by occurrence: an item counts from the latest compaction on and among
      the extra items, and before that only as a user, developer or system message; it must not be
      excluded, may be replayed, and needs its partner among what counts. */
  lemma PromptExactly(history: seq<Item>, extra: seq<Item>, excluded: set<string>, start: nat, item: Item)
    requires IsStart(history, start)
    ensures multiset(ForPrompt(history, extra, excluded))[item] ==
            if (item.callId.Some? && item.callId.value in excluded) || !MayStay(item) ||
               !HasPartner(history[start..] + extra, item)
            then 0
            else
              multiset(history[start..])[item] + multiset(extra)[item] +
              if item.kind in {Message(User), Message(Developer), Message(System)}
              then multiset(history[..start])[item] else 0
  {
    var all := Prune(history) + extra;
    PruneCounts(history, start, item);
    WithoutCounts(all, excluded, item);
    NormalizedExactly(Without(all, excluded), item);
    assert multiset(all)[item] == multiset(Prune(history))[item] + multiset(extra)[item];
    if !Excludes(excluded, item) {
      PrunedPartners(history, extra, excluded, start, item);
    }
  }

  lemma {:induction false} SubTrans(a: seq<Item>, b: seq<Item>, c: seq<Item>)
    requires Sub(a, b) && Sub(b, c)
    ensures Sub(a, c)
    decreases |b| + |c|
  {
    if a != [] {
      var m, n := |b| - 1, |c| - 1;
      if b[m] == c[n] && Sub(b[..m], c[..n]) {
        if a[|a| - 1] == b[m] && Sub(a[..|a| - 1], b[..m]) {
          SubTrans(a[..|a| - 1], b[..m], c[..n]);
        } else {
          SubTrans(a, b[..m], c[..n]);
        }
      } else {
        SubTrans(a, b, c[..n]);
      }
    }
  }

  /** What is selected on both sides of a split keeps its order. */
  lemma {:induction false} SubJoin(a: seq<Item>, b: seq<Item>, rest: seq<Item>)
    requires Sub(a, b)
    ensures Sub(a + rest, b + rest)
  {
    if rest == [] {
      assert a + rest == a && b + rest == b;
    } else {
      var n := |rest| - 1;
      SubJoin(a, b, rest[..n]);
      assert (a + rest)[..|a + rest| - 1] == a + rest[..n];
      assert (b + rest)[..|b + rest| - 1] == b + rest[..n];
    }
  }

  lemma {:induction false} WithoutIsSub(items: seq<Item>, excluded: set<string>)
    ensures Sub(Without(items, excluded), items)
  {
    if items != [] {
      var n := |items| - 1;
      WithoutIsSub(items[..n], excluded);
      var r, before := Without(items, excluded), Without(items[..n], excluded);
      if Excludes(excluded, items[n]) {
        assert r == before;
      } else {
        assert r[..|r| - 1] == before;
      }
    }
  }

  lemma {:induction false} TrueMessagesIsSub(items: seq<Item>)
    ensures Sub(TrueMessages(items), items)
  {
    if items != [] {
      var n := |items| - 1;
      TrueMessagesIsSub(items[..n]);
      var r, before := TrueMessages(items), TrueMessages(items[..n]);
      if TrueContext(items[n]) {
        assert r[..|r| - 1] == before;
      } else {
        assert r == before;
      }
    }
  }

  lemma PrunedIsSub(history: seq<Item>, extra: seq<Item>, start: nat)
    requires IsStart(history, start)
    ensures Sub(Prune(history) + extra, history + extra)
  {
    PruneSplits(history, extra, start);
    TrueMessagesIsSub(history[..start]);
    SubJoin(TrueMessages(history[..start]), history[..start], history[start..] + extra);
  }

  /** And in the order of the history followed by the extra items. */
  lemma PromptIsInOrder(history: seq<Item>, extra: seq<Item>, excluded: set<string>, start: nat)
    requires IsStart(history, start)
    ensures Sub(ForPrompt(history, extra, excluded), history + extra)
  {
    var all := Prune(history) + extra;
    PrunedIsSub(history, extra, start);
    WithoutIsSub(all, excluded);
    NormalizedIsClosed(Without(all, excluded));
    SubTrans(Without(all, excluded), all, history + extra);
    SubTrans(ForPrompt(history, extra, excluded), Without(all, excluded), history + extra);
  }

  lemma PrunedPartners(history: seq<Item>, extra: seq<Item>, excluded: set<string>, start: nat, item: Item)
    requires IsStart(history, start) && !Excludes(excluded, item)
    ensures HasPartner(Without(Prune(history) + extra, excluded), item) <==>
            HasPartner(history[start..] + extra, item)
  {
    PruneSplits(history, extra, start);
    PartnersKept(history[..start], history[start..] + extra, excluded, item);
  }

  /** Messages are nobody's partner, and the partner of an item that is not excluded is not excluded. */
  lemma PartnersKept(before: seq<Item>, rest: seq<Item>, excluded: set<string>, item: Item)
    requires !Excludes(excluded, item)
    ensures HasPartner(Without(TrueMessages(before) + rest, excluded), item) <==> HasPartner(rest, item)
  {
    KindSurvives(before, rest, excluded, ToolCall, item.callId);
    KindSurvives(before, rest, excluded, ToolOutput, item.callId);
  }

  lemma KindSurvives(before: seq<Item>, rest: seq<Item>, excluded: set<string>, kind: Kind, id: Option<string>)
    requires (kind == ToolCall || kind == ToolOutput) && (id.Some? ==> id.value !in excluded)
    ensures HasKind(Without(TrueMessages(before) + rest, excluded), kind, id) <==> HasKind(rest, kind, id)
  {
    var all := TrueMessages(before) + rest;
    if HasKind(rest, kind, id) {
      var i :| 0 <= i < |rest| && rest[i].kind == kind && rest[i].callId == id;
      assert all[|TrueMessages(before)| + i] == rest[i];
      KindKept(all, excluded, kind, id);
    }
    if HasKind(Without(all, excluded), kind, id) {
      var kept := Without(all, excluded);
      var i :| 0 <= i < |kept| && kept[i].kind == kind && kept[i].callId == id;
      WithoutExactly(all, excluded, kept[i]);
      TrueMessagesExactly(before, kept[i]);
      var j :| 0 <= j < |all| && all[j] == kept[i];
      if j >= |TrueMessages(before)| {
        assert rest[j - |TrueMessages(before)|] == all[j];
      }
    }
  }

  lemma KindKept(items: seq<Item>, excluded: set<string>, kind: Kind, id: Option<string>)
    requires HasKind(items, kind, id) && (id.Some? ==> id.value !in excluded)
    ensures HasKind(Without(items, excluded), kind, id)
  {
    var i :| 0 <= i < |items| && items[i].kind == kind && items[i].callId == id;
    WithoutExactly(items, excluded, items[i]);
    HasKindOfMember(Without(items, excluded), items[i]);
  }

  // --- The loops ---

  method NormalizeItems(items: seq<Item>) returns (normalized: seq<Item>)
    ensures normalized == Normalize(items)
  {
    var calls, outputs: set<string> := {}, {};
    for n := 0 to |items|
      invariant calls == Ids(items[..n], ToolCall) && outputs == Ids(items[..n], ToolOutput)
    {
      IdsExtend(items, n, ToolCall);
      IdsExtend(items, n, ToolOutput);
      if Replayable(items[n]) && items[n].kind.ToolCall? {
        calls := calls + {items[n].callId.value};
      }
      if Replayable(items[n]) && items[n].kind.ToolOutput? {
        outputs := outputs + {items[n].callId.value};
      }
    }
    assert items[..|items|] == items;
    var paired := calls * outputs;
    normalized := [];
    for n := 0 to |items|
      invariant normalized == Select(items[..n], paired)
    {
      assert items[..n + 1][..n] == items[..n];
      if !Replayable(items[n]) || (IsTool(items[n]) && items[n].callId.value !in paired) {
        continue;
      }
      normalized := normalized + [items[n]];
    }
  }

  lemma IdsExtend(items: seq<Item>, n: nat, kind: Kind)
    requires n < |items|
    ensures Ids(items[..n + 1], kind) ==
            Ids(items[..n], kind) +
            if items[n].kind == kind && items[n].callId.Some? then {items[n].callId.value} else {}
  {
  }

  method LatestCompactionIndex(items: seq<Item>) returns (r: Option<nat>)
    ensures r == LatestCompaction(items)
  {
    var n := |items|;
    while n > 0
      invariant 0 <= n <= |items| && LatestCompaction(items) == LatestCompaction(items[..n])
    {
      assert items[..n][..n - 1] == items[..n - 1];
      n := n - 1;
      if items[n].kind.Compaction? {
        return Some(n);
      }
    }
    r := None;
  }

  method PruneItems(items: seq<Item>) returns (retained: seq<Item>)
    ensures retained == Prune(items)
  {
    var latest := LatestCompactionIndex(items);
    if latest.None? {
      return items;
    }
    retained := [];
    for n := 0 to |items|
      invariant retained == if n <= latest.value then TrueMessages(items[..n])
                            else TrueMessages(items[..latest.value]) + items[latest.value..n]
    {
      assert items[..n + 1][..n] == items[..n];
      if n >= latest.value || TrueContext(items[n]) {
        retained := retained + [items[n]];
      }
    }
  }
}
