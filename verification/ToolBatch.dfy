/**
  * A batch of tool calls: which of them execute, and the results they get. Calls with the same signature
  * execute once; calls that share an execution key do not execute at all.
  */
module ToolBatch {

  import opened Streams
  import opened Sets

  type Result(==, !new)

  /** `signature` identifies name and arguments; `keys` are what the call must not share with another. */
  datatype Preparation = Immediate(result: Result) | Prepared(signature: string, keys: seq<string>)

  datatype Call = Call(id: string, preparation: Preparation)

  datatype Entry = Entry(call: Call, duplicate: bool, conflictKey: Option<string>)

  /** A prepared entry that is not a duplicate. */
  predicate Candidate(e: Entry) { e.call.preparation.Prepared? && !e.duplicate }

  /** The entries whose tool runs: a conflict on the empty key is no conflict to the executors. */
  predicate Executes(e: Entry) { Candidate(e) && (e.conflictKey.None? || e.conflictKey.value == "") }

  predicate HasKey(e: Entry, key: string) { Candidate(e) && key in e.call.preparation.keys }

  /** Another candidate of the batch has the key too. */
  predicate Shared(entries: seq<Entry>, i: nat, key: string)
    requires i < |entries|
  {
    HasKey(entries[i], key) && exists j :: 0 <= j < |entries| && j != i && HasKey(entries[j], key)
  }

  predicate DistinctIds(calls: seq<Call>) { forall i, j :: 0 <= i < j < |calls| ==> calls[i].id != calls[j].id }

  /** Exactly the later ones of several prepared calls with one signature are duplicates. */
  predicate DuplicatesMarked(entries: seq<Entry>) {
    forall i :: 0 <= i < |entries| ==>
      (entries[i].duplicate <==>
         && entries[i].call.preparation.Prepared?
         && exists j :: 0 <= j < i && Candidate(entries[j])
              && entries[j].call.preparation.signature == entries[i].call.preparation.signature)
  }

  /** An entry is marked with its first shared key, and only a candidate that shares one is. */
  predicate ConflictsMarked(entries: seq<Entry>) {
    forall i :: 0 <= i < |entries| ==>
      match entries[i].conflictKey
      case None => Candidate(entries[i]) ==> forall key :: key in entries[i].call.preparation.keys ==>
        !Shared(entries, i, key)
      case Some(key) =>
        && Candidate(entries[i]) && Shared(entries, i, key)
        && exists k :: 0 <= k < |entries[i].call.preparation.keys| && entries[i].call.preparation.keys[k] == key
             && forall l :: 0 <= l < k ==> !Shared(entries, i, entries[i].call.preparation.keys[l])
  }

  // ---------------------------------------------------------------------------------------------
  // Preparing

  /** The ids of the candidates with a key, as the loop collects them. */
  function IdsWith(entries: seq<Entry>, key: string): set<string> {
    set i | 0 <= i < |entries| && HasKey(entries[i], key) :: entries[i].call.id
  }

  /** A candidate shares a key exactly when more than one id has it. */
  lemma SharedIffTwoIds(calls: seq<Call>, entries: seq<Entry>, i: nat, key: string)
    requires DistinctIds(calls) && |entries| <= |calls|
    requires forall j :: 0 <= j < |entries| ==> entries[j].call == calls[j]
    requires i < |entries| && HasKey(entries[i], key)
    ensures Shared(entries, i, key) <==> |IdsWith(entries, key)| > 1
  {
    var ids := IdsWith(entries, key);
    assert entries[i].call.id in ids;
    if Shared(entries, i, key) {
      var j :| 0 <= j < |entries| && j != i && HasKey(entries[j], key);
      assert entries[j].call.id in ids && entries[j].call.id != entries[i].call.id;
      assert {entries[i].call.id, entries[j].call.id} <= ids;
      SubsetSize({entries[i].call.id, entries[j].call.id}, ids);
    } else {
      assert ids == {entries[i].call.id};
    }
  }

  /** The calls whose ids are collected for each key so far. */
  ghost predicate Collected(entries: seq<Entry>, keyIds: map<string, set<string>>) {
    forall key :: (key in keyIds <==> exists i :: 0 <= i < |entries| && HasKey(entries[i], key))
      && (key in keyIds ==> keyIds[key] == IdsWith(entries, key))
  }

  lemma IdsAppend(entries: seq<Entry>, e: Entry, key: string)
    ensures IdsWith(entries + [e], key) == IdsWith(entries, key) + if HasKey(e, key) then {e.call.id} else {}
  {
    var all := entries + [e];
    if HasKey(e, key) { assert HasKey(all[|entries|], key); }
    forall id | id in IdsWith(entries, key) ensures id in IdsWith(all, key) {
      var i :| 0 <= i < |entries| && HasKey(entries[i], key) && entries[i].call.id == id;
      assert HasKey(all[i], key);
    }
  }

  lemma SomeoneAppend(entries: seq<Entry>, e: Entry, key: string)
    ensures (exists i :: 0 <= i < |entries + [e]| && HasKey((entries + [e])[i], key))
      <==> (exists i :: 0 <= i < |entries| && HasKey(entries[i], key)) || HasKey(e, key)
  {
    var all := entries + [e];
    assert all[|entries|] == e && forall i :: 0 <= i < |entries| ==> all[i] == entries[i];
  }

  lemma CollectedAppend(entries: seq<Entry>, keyIds: map<string, set<string>>, e: Entry, next: map<string, set<string>>)
    requires Collected(entries, keyIds)
    requires next.Keys == keyIds.Keys + (if Candidate(e) then set key | key in e.call.preparation.keys else {})
    requires forall key :: key in next ==>
      next[key] == (if key in keyIds then keyIds[key] else {}) + if HasKey(e, key) then {e.call.id} else {}
    ensures Collected(entries + [e], next)
  {
    forall key: string
      ensures key in next <==> exists i :: 0 <= i < |entries + [e]| && HasKey((entries + [e])[i], key)
      ensures key in next ==> next[key] == IdsWith(entries + [e], key)
    {
      IdsAppend(entries, e, key);
      SomeoneAppend(entries, e, key);
      if key !in keyIds { assert IdsWith(entries, key) == {}; }
    }
  }

  /** The first key that conflicts. */
  method FirstConflict(keys: seq<string>, conflicting: set<string>) returns (found: Option<string>)
    ensures found.None? ==> forall k :: 0 <= k < |keys| ==> keys[k] !in conflicting
    ensures found.Some? ==>
      exists k :: 0 <= k < |keys| && keys[k] == found.value && keys[k] in conflicting
        && forall l :: 0 <= l < k ==> keys[l] !in conflicting
  {
    for k := 0 to |keys|
      invariant forall l :: 0 <= l < k ==> keys[l] !in conflicting
    {
      if keys[k] in conflicting { return Some(keys[k]); }
    }
    return None;
  }

  /** The signatures of the candidates. */
  ghost predicate SignaturesOf(entries: seq<Entry>, signatures: set<string>) {
    forall s :: s in signatures <==>
      exists i :: 0 <= i < |entries| && Candidate(entries[i]) && entries[i].call.preparation.signature == s
  }

  lemma DuplicatesAppend(entries: seq<Entry>, signatures: set<string>, e: Entry)
    requires DuplicatesMarked(entries) && SignaturesOf(entries, signatures)
    requires e.duplicate <==> e.call.preparation.Prepared? && e.call.preparation.signature in signatures
    ensures DuplicatesMarked(entries + [e])
    ensures SignaturesOf(
      entries + [e],
      if Candidate(e) then signatures + {e.call.preparation.signature} else signatures)
  {
    var all := entries + [e];
    assert all[|entries|] == e && forall i :: 0 <= i < |entries| ==> all[i] == entries[i];
  }

  /** The first loop. `aborted[i]`: the signal is aborted when call `i` was prepared. */
  method CollectEntries(calls: seq<Call>, aborted: seq<bool>)
      returns (entries: seq<Entry>, keyIds: map<string, set<string>>)
    requires |aborted| == |calls|
    ensures |entries| <= |calls|
    ensures forall i :: 0 <= i < |entries| ==> entries[i].call == calls[i] && entries[i].conflictKey.None?
    ensures (forall i :: 0 <= i < |calls| ==> !aborted[i]) ==> |entries| == |calls|
    ensures DuplicatesMarked(entries) && Collected(entries, keyIds)
  {
    hide DuplicatesMarked, SignaturesOf, Collected, HasKey;
    entries := [];
    var signatures: set<string> := {};
    keyIds := map[];
    NothingCollected();
    var n := 0;
    while n < |calls|
      invariant n == |entries| <= |calls|
      invariant forall i :: 0 <= i < n ==> entries[i].call == calls[i] && entries[i].conflictKey.None?
      invariant DuplicatesMarked(entries) && SignaturesOf(entries, signatures) && Collected(entries, keyIds)
    {
      var call := calls[n];
      var duplicate := call.preparation.Prepared? && call.preparation.signature in signatures;
      var entry := Entry(call, duplicate, None);
      ghost var before := keyIds;
      DuplicatesAppend(entries, signatures, entry);
      if call.preparation.Prepared? && !duplicate {
        signatures := signatures + {call.preparation.signature};
        keyIds := AddKeys(keyIds, call.preparation.keys, call.id);
      }
      assert forall key :: HasKey(entry, key) <==> Candidate(entry) && key in call.preparation.keys by {
        KeysOf(entry);
      }
      CollectedAppend(entries, before, entry, keyIds);
      entries := entries + [entry];
      n := n + 1;
      if aborted[n - 1] { break; }
    }
  }

  lemma KeysOf(e: Entry)
    ensures forall key :: HasKey(e, key) <==> Candidate(e) && key in e.call.preparation.keys
  {
  }

  lemma NothingCollected()
    ensures DuplicatesMarked([]) && SignaturesOf([], {}) && Collected([], map[])
  {
  }

  /** The final pass: a candidate gets its first conflicting key. */
  method MarkConflicts(prepared: seq<Entry>, conflicting: set<string>) returns (entries: seq<Entry>)
    requires forall j :: 0 <= j < |prepared| ==> prepared[j].conflictKey.None?
    ensures |entries| == |prepared|
    ensures forall j :: 0 <= j < |entries| ==> entries[j] == prepared[j].(conflictKey := entries[j].conflictKey)
    ensures forall j :: 0 <= j < |entries| ==> MarkedBy(entries[j], conflicting)
  {
    entries := [];
    for i := 0 to |prepared|
      invariant |entries| == i
      invariant forall j :: 0 <= j < i ==> entries[j] == prepared[j].(conflictKey := entries[j].conflictKey)
      invariant forall j :: 0 <= j < i ==> MarkedBy(entries[j], conflicting)
    {
      var entry := prepared[i];
      if entry.call.preparation.Prepared? && !entry.duplicate {
        var conflict := FirstConflict(entry.call.preparation.keys, conflicting);
        entry := entry.(conflictKey := conflict);
      }
      entries := entries + [entry];
    }
  }

  method PrepareToolCallBatch(calls: seq<Call>, aborted: seq<bool>) returns (entries: seq<Entry>)
    requires |aborted| == |calls|
    ensures |entries| <= |calls| && forall i :: 0 <= i < |entries| ==> entries[i].call == calls[i]
    ensures (forall i :: 0 <= i < |calls| ==> !aborted[i]) ==> |entries| == |calls|
    ensures DuplicatesMarked(entries)
    ensures DistinctIds(calls) ==> ConflictsMarked(entries)
  {
    hide DuplicatesMarked, Collected, ConflictsMarked, MarkedBy;
    var prepared, keyIds := CollectEntries(calls, aborted);
    var conflicting := set key | key in keyIds && |keyIds[key]| > 1;
    entries := MarkConflicts(prepared, conflicting);
    SameMarks(prepared, entries);
    if DistinctIds(calls) { MarksAreConflicts(calls, prepared, entries, keyIds, conflicting); }
  }

  predicate MarkedBy(e: Entry, conflicting: set<string>) {
    match e.conflictKey
    case None => Candidate(e) ==> forall k :: 0 <= k < |e.call.preparation.keys| ==>
      e.call.preparation.keys[k] !in conflicting
    case Some(key) =>
      && Candidate(e)
      && var keys := e.call.preparation.keys;
         exists k :: 0 <= k < |keys| && keys[k] == key && key in conflicting
           && forall l :: 0 <= l < k ==> keys[l] !in conflicting
  }

  method AddKeys(keyIds: map<string, set<string>>, keys: seq<string>, id: string)
      returns (next: map<string, set<string>>)
    ensures next.Keys == keyIds.Keys + set key | key in keys
    ensures forall key :: key in next ==>
      next[key] == (if key in keyIds then keyIds[key] else {}) + if key in keys then {id} else {}
  {
    next := keyIds;
    for k := 0 to |keys|
      invariant next.Keys == keyIds.Keys + set key | key in keys[..k]
      invariant forall key :: key in next ==>
        next[key] == (if key in keyIds then keyIds[key] else {}) + if key in keys[..k] then {id} else {}
    {
      assert keys[..k + 1] == keys[..k] + [keys[k]];
      var ids := if keys[k] in next then next[keys[k]] else {};
      next := next[keys[k] := ids + {id}];
    }
    assert keys[..|keys|] == keys;
  }

  /** Marking conflicts leaves duplicates and keys as they were. */
  lemma SameMarks(prepared: seq<Entry>, entries: seq<Entry>)
    requires |prepared| == |entries| && DuplicatesMarked(prepared)
    requires forall j :: 0 <= j < |entries| ==> entries[j] == prepared[j].(conflictKey := entries[j].conflictKey)
    ensures DuplicatesMarked(entries)
    ensures forall i, key :: 0 <= i < |entries| ==> (Shared(entries, i, key) <==> Shared(prepared, i, key))
  {
    forall i | 0 <= i < |entries| ensures Candidate(entries[i]) == Candidate(prepared[i]) { }
    forall i, key | 0 <= i < |entries| ensures HasKey(entries[i], key) == HasKey(prepared[i], key) { }
  }

  lemma MarksAreConflicts(calls: seq<Call>, prepared: seq<Entry>, entries: seq<Entry>,
                          keyIds: map<string, set<string>>, conflicting: set<string>)
    requires DistinctIds(calls) && |prepared| == |entries| <= |calls| && Collected(prepared, keyIds)
    requires forall j :: 0 <= j < |prepared| ==> prepared[j].call == calls[j]
    requires forall j :: 0 <= j < |entries| ==> entries[j] == prepared[j].(conflictKey := entries[j].conflictKey)
    requires conflicting == set key | key in keyIds && |keyIds[key]| > 1
    requires forall j :: 0 <= j < |entries| ==> MarkedBy(entries[j], conflicting)
    requires forall i, key :: 0 <= i < |entries| ==> (Shared(entries, i, key) <==> Shared(prepared, i, key))
    ensures ConflictsMarked(entries)
  {
    forall i, key | 0 <= i < |entries| && HasKey(entries[i], key)
      ensures Shared(entries, i, key) <==> key in conflicting
    {
      SharedIffTwoIds(calls, prepared, i, key);
    }
    forall i | 0 <= i < |entries| ensures MarkedBy(entries[i], conflicting) { }
  }

  // ---------------------------------------------------------------------------------------------
  // What executes

  /** No two executing entries have one signature, or share a key. */
  predicate Exclusive(entries: seq<Entry>) {
    forall i, j :: 0 <= i < j < |entries| && Executes(entries[i]) && Executes(entries[j]) ==>
      && entries[i].call.preparation.signature != entries[j].call.preparation.signature
      && forall key :: key in entries[i].call.preparation.keys ==> key !in entries[j].call.preparation.keys
  }

  /** The entries whose first shared key is the empty one: they are marked, and execute all the same. */
  function MarkedEmpty(entries: seq<Entry>): set<nat> {
    set i | 0 <= i < |entries| && entries[i].conflictKey == Some("")
  }

  lemma SignaturesDiffer(entries: seq<Entry>, i: nat, j: nat)
    requires DuplicatesMarked(entries) && i < j < |entries| && Candidate(entries[i]) && Candidate(entries[j])
    ensures entries[i].call.preparation.signature != entries[j].call.preparation.signature
  {
  }

  /** Two executing entries that share a key are both marked with the empty key. */
  lemma SharersAreMarked(entries: seq<Entry>, i: nat, j: nat, key: string)
    requires ConflictsMarked(entries) && i < |entries| && j < |entries| && i != j
    requires Executes(entries[i]) && Executes(entries[j]) && HasKey(entries[i], key) && HasKey(entries[j], key)
    ensures i in MarkedEmpty(entries)
  {
    assert Shared(entries, i, key);
  }

  /**
    * Executing entries have distinct signatures, and they share no key exactly when at most one of them has
    * the empty key as its first shared one.
    */
  lemma ExclusionIffOneEmpty(entries: seq<Entry>)
    requires DuplicatesMarked(entries) && ConflictsMarked(entries)
    ensures Exclusive(entries) <==> |MarkedEmpty(entries)| <= 1
  {
    hide DuplicatesMarked, ConflictsMarked;
    var marked := MarkedEmpty(entries);
    if |marked| <= 1 {
      forall i, j | 0 <= i < j < |entries| && Executes(entries[i]) && Executes(entries[j])
        ensures entries[i].call.preparation.signature != entries[j].call.preparation.signature
        ensures forall key :: key in entries[i].call.preparation.keys ==> key !in entries[j].call.preparation.keys
      {
        SignaturesDiffer(entries, i, j);
        forall key | key in entries[i].call.preparation.keys ensures key !in entries[j].call.preparation.keys {
          if key in entries[j].call.preparation.keys {
            SharersAreMarked(entries, i, j, key);
            SharersAreMarked(entries, j, i, key);
            SubsetSize({i as nat, j as nat}, marked);
          }
        }
      }
    } else {
      var i, j := TwoOf(marked);
      MarkedHasEmpty(entries, i);
      MarkedHasEmpty(entries, j);
    }
  }

  lemma MarkedHasEmpty(entries: seq<Entry>, i: nat)
    requires ConflictsMarked(entries) && i in MarkedEmpty(entries)
    ensures i < |entries| && Executes(entries[i]) && "" in entries[i].call.preparation.keys
  {
  }

  lemma TwoOf(s: set<nat>) returns (i: nat, j: nat)
    requires |s| > 1
    ensures i in s && j in s && i < j
  {
    var x :| x in s;
    assert |s - {x}| > 0;
    var y :| y in s - {x};
    i, j := if x < y then x else y, if x < y then y else x;
  }

  // What that means for the calls of a batch, before anything is computed of them

  /** A prepared call, and the first with its signature. */
  predicate First(calls: seq<Call>, i: nat)
    requires i < |calls|
  {
    calls[i].preparation.Prepared? &&
    forall j :: 0 <= j < i && calls[j].preparation.Prepared? ==>
      calls[j].preparation.signature != calls[i].preparation.signature
  }

  predicate CallHas(calls: seq<Call>, i: nat, key: string)
    requires i < |calls|
  {
    First(calls, i) && key in calls[i].preparation.keys
  }

  predicate CallShares(calls: seq<Call>, i: nat, key: string)
    requires i < |calls|
  {
    CallHas(calls, i, key) && exists j :: 0 <= j < |calls| && j != i && CallHas(calls, j, key)
  }

  /** The first of the call's keys that another first call has too is the empty one. */
  predicate EmptyFirst(calls: seq<Call>, i: nat)
    requires i < |calls|
  {
    CallShares(calls, i, "") &&
    exists k :: 0 <= k < |calls[i].preparation.keys| && calls[i].preparation.keys[k] == ""
      && forall l :: 0 <= l < k ==> !CallShares(calls, i, calls[i].preparation.keys[l])
  }

  function EmptyFirsts(calls: seq<Call>): set<nat> { set i | 0 <= i < |calls| && EmptyFirst(calls, i) }

  function CallsOf(entries: seq<Entry>): seq<Call> {
    seq(|entries|, i requires 0 <= i < |entries| => entries[i].call)
  }

  lemma {:induction false} CandidateIsFirst(entries: seq<Entry>, i: nat)
    requires DuplicatesMarked(entries) && i < |entries|
    ensures Candidate(entries[i]) <==> First(CallsOf(entries), i)
  {
    var calls := CallsOf(entries);
    assert forall j :: 0 <= j < i && Candidate(entries[j]) ==>
      calls[j] == entries[j].call && calls[j].preparation.Prepared?;
    if calls[i].preparation.Prepared? && !First(calls, i) {
      var j := Earliest(calls, i);
      CandidateIsFirst(entries, j);
      assert Candidate(entries[j]) && entries[j].call.preparation.signature == entries[i].call.preparation.signature;
    }
  }

  /** The first call with the signature of a prepared one. */
  lemma {:induction false} Earliest(calls: seq<Call>, i: nat) returns (j: nat)
    requires i < |calls| && calls[i].preparation.Prepared? && !First(calls, i)
    ensures j < i && First(calls, j) && calls[j].preparation.signature == calls[i].preparation.signature
  {
    j :| 0 <= j < i && calls[j].preparation.Prepared?
      && calls[j].preparation.signature == calls[i].preparation.signature;
    if !First(calls, j) { j := Earliest(calls, j); }
  }

  lemma SharedIsCallShares(entries: seq<Entry>, i: nat, key: string)
    requires DuplicatesMarked(entries) && i < |entries|
    ensures Shared(entries, i, key) <==> CallShares(CallsOf(entries), i, key)
  {
    hide DuplicatesMarked, First;
    forall j | 0 <= j < |entries| ensures HasKey(entries[j], key) <==> CallHas(CallsOf(entries), j, key) {
      CandidateIsFirst(entries, j);
    }
  }

  /** An entry is marked with the empty key exactly if its call's first shared key is empty. */
  lemma MarkedIsEmptyFirst(entries: seq<Entry>, i: nat)
    requires DuplicatesMarked(entries) && ConflictsMarked(entries) && i < |entries|
    ensures i in MarkedEmpty(entries) <==> EmptyFirst(CallsOf(entries), i)
  {
    hide DuplicatesMarked, First, CallShares;
    var calls := CallsOf(entries);
    forall key ensures Shared(entries, i, key) <==> CallShares(calls, i, key) { SharedIsCallShares(entries, i, key); }
    CandidateIsFirst(entries, i);
    if EmptyFirst(calls, i) { FirstSharedIsUnique(entries, i); }
    if i in MarkedEmpty(entries) { MarkedHasEmptyFirst(entries, i); }
  }

  lemma MarkedHasEmptyFirst(entries: seq<Entry>, i: nat)
    requires ConflictsMarked(entries) && i < |entries| && i in MarkedEmpty(entries)
    requires forall key :: Shared(entries, i, key) <==> CallShares(CallsOf(entries), i, key)
    ensures EmptyFirst(CallsOf(entries), i)
  {
    hide CallShares, Shared;
    var keys := entries[i].call.preparation.keys;
    var k :| 0 <= k < |keys| && keys[k] == "" && forall l :: 0 <= l < k ==> !Shared(entries, i, keys[l]);
    assert CallsOf(entries)[i].preparation.keys[k] == "";
  }

  lemma FirstSharedIsUnique(entries: seq<Entry>, i: nat)
    requires ConflictsMarked(entries) && i < |entries| && EmptyFirst(CallsOf(entries), i) && Candidate(entries[i])
    requires forall key :: Shared(entries, i, key) <==> CallShares(CallsOf(entries), i, key)
    ensures entries[i].conflictKey == Some("")
  {
    hide CallShares, Shared;
    var keys := entries[i].call.preparation.keys;
    assert Shared(entries, i, "");
    var e :| 0 <= e < |keys| && keys[e] == "" && forall l :: 0 <= l < e ==> !CallShares(CallsOf(entries), i, keys[l]);
    assert entries[i].conflictKey.Some?;
    var key := entries[i].conflictKey.value;
    var k :| 0 <= k < |keys| && keys[k] == key && forall l :: 0 <= l < k ==> !Shared(entries, i, keys[l]);
    assert Shared(entries, i, keys[k]) && Shared(entries, i, keys[e]);
  }

  /**
    * What executes of a batch has distinct signatures and disjoint keys if and only if at most one of its first
    * calls has the empty key as its first shared one.
    */
  lemma ExclusionIffOneEmptyKey(entries: seq<Entry>)
    requires DuplicatesMarked(entries) && ConflictsMarked(entries)
    ensures Exclusive(entries) <==> |EmptyFirsts(CallsOf(entries))| <= 1
  {
    hide DuplicatesMarked, ConflictsMarked, Exclusive, EmptyFirst;
    forall i | 0 <= i < |entries| ensures i in MarkedEmpty(entries) <==> EmptyFirst(CallsOf(entries), i) {
      MarkedIsEmptyFirst(entries, i);
    }
    assert MarkedEmpty(entries) == EmptyFirsts(CallsOf(entries));
    ExclusionIffOneEmpty(entries);
  }

  /** In particular, without empty keys what executes is exclusive. */
  lemma NonEmptyKeysExclude(entries: seq<Entry>)
    requires DuplicatesMarked(entries) && ConflictsMarked(entries)
    requires forall i :: 0 <= i < |entries| && entries[i].call.preparation.Prepared? ==>
      "" !in entries[i].call.preparation.keys
    ensures Exclusive(entries)
  {
    assert MarkedEmpty(entries) == {};
    ExclusionIffOneEmpty(entries);
  }

  /** Two calls that share the empty key, however they are prepared: both execute. */
  lemma SharedEmptyKeyExecutes(entries: seq<Entry>)
    requires CallsOf(entries) == [Call("a", Prepared("one", [""])), Call("b", Prepared("two", [""]))]
    requires DuplicatesMarked(entries) && ConflictsMarked(entries)
    ensures Executes(entries[0]) && Executes(entries[1]) && HasKey(entries[0], "") && HasKey(entries[1], "")
    ensures !Exclusive(entries)
  {
    assert entries[0].call == CallsOf(entries)[0] && entries[1].call == CallsOf(entries)[1];
    assert "one" != "two" by { assert "one"[0] != "two"[0]; }
    assert HasKey(entries[0], "") && HasKey(entries[1], "");
    assert Shared(entries, 0, "") && Shared(entries, 1, "");
  }

  // ---------------------------------------------------------------------------------------------
  // Executing

  /** `Refused`: by the hook before a call. `Stopped`: the signal was aborted when the call's turn came. */
  datatype Answer =
    | Given(result: Result)
    | SkippedDuplicate
    | Conflicting(key: string)
    | Refused(result: Result)
    | Ran(result: Result)
    | Stopped

  datatype Message = Message(callId: string, answer: Answer)

  /** The answer to an entry: `run` is what becomes of it if it executes. */
  function Answered(e: Entry, run: Answer): Answer {
    match e.call.preparation
    case Immediate(result) => Given(result)
    case Prepared(_, _) =>
      if e.duplicate then SkippedDuplicate
      else if e.conflictKey.Some? && e.conflictKey.value != "" then Conflicting(e.conflictKey.value)
      else run
  }

  /** One result per call, in source order. */
  ghost predicate Complete(calls: seq<Call>, entries: seq<Entry>, runs: seq<Answer>, messages: seq<Message>) {
    && |messages| == |calls| == |entries| == |runs|
    && forall i :: 0 <= i < |messages| ==> messages[i] == Message(calls[i].id, Answered(entries[i], runs[i]))
  }

  /** `executeToolCallsSequential`: `abortedAfter[i]`, the signal is aborted once result `i` is there. */
  method ExecuteSequential(calls: seq<Call>, entries: seq<Entry>, runs: seq<Answer>, abortedAfter: seq<bool>)
    returns (messages: seq<Message>)
    requires |entries| == |runs| == |abortedAfter| && |entries| <= |calls|
    requires forall i :: 0 <= i < |entries| ==> entries[i].call == calls[i]
    requires forall i :: 0 <= i < |runs| ==> runs[i].Refused? || runs[i].Ran?
    ensures |entries| == |calls| && (forall i :: 0 <= i < |entries| ==> !abortedAfter[i]) ==>
      Complete(calls, entries, runs, messages)
    ensures |messages| <= |entries|
    ensures forall i :: 0 <= i < |messages| ==> messages[i] == Message(calls[i].id, Answered(entries[i], runs[i]))
  {
    messages := [];
    var i := 0;
    while i < |entries|
      invariant i == |messages| <= |entries|
      invariant forall j :: 0 <= j < i ==> messages[j] == Message(calls[j].id, Answered(entries[j], runs[j]))
    {
      var entry := entries[i];
      var answer: Answer;
      if entry.call.preparation.Immediate? {
        answer := Given(entry.call.preparation.result);
      } else if entry.duplicate {
        answer := SkippedDuplicate;
      } else if entry.conflictKey.Some? && entry.conflictKey.value != "" {
        answer := Conflicting(entry.conflictKey.value);
      } else {
        answer := runs[i];
      }
      messages := messages + [Message(entry.call.id, answer)];
      i := i + 1;
      if abortedAfter[i - 1] { break; }
    }
  }

  /**
    * `executeToolCallsParallel`: the entries settle in any order, `settling`; the results come in source order all
    * the same, one for each entry, also when the batch is aborted (then there may be fewer entries than calls).
    * Hooks ran while preparing, so an entry that executes runs, or is stopped if the signal is aborted by then.
    */
  method ExecuteParallel(calls: seq<Call>, entries: seq<Entry>, runs: seq<Answer>, settling: seq<nat>)
    returns (messages: seq<Message>)
    requires |entries| == |runs| && |entries| <= |calls|
    requires forall i :: 0 <= i < |entries| ==> entries[i].call == calls[i]
    requires forall i :: 0 <= i < |runs| ==> runs[i].Ran? || runs[i].Stopped?
    requires forall i :: 0 <= i < |settling| ==> settling[i] < |entries|
    requires forall i :: 0 <= i < |entries| ==> i in settling
    ensures |messages| == |entries|
    ensures forall i :: 0 <= i < |messages| ==> messages[i] == Message(calls[i].id, Answered(entries[i], runs[i]))
    ensures |entries| == |calls| ==> Complete(calls, entries, runs, messages)
  {
    var finalized := new Option<Answer>[|entries|](_ => None);
    for k := 0 to |settling|
      invariant forall i :: 0 <= i < |entries| ==>
        finalized[i] == if i in settling[..k] then Some(Answered(entries[i], runs[i])) else None
    {
      var i := settling[k];
      assert settling[..k + 1] == settling[..k] + [i];
      var entry := entries[i];
      finalized[i] :=
        if entry.call.preparation.Immediate? then Some(Given(entry.call.preparation.result))
        else if entry.duplicate then Some(SkippedDuplicate)
        else if entry.conflictKey.Some? && entry.conflictKey.value != "" then Some(Conflicting(entry.conflictKey.value))
        else Some(runs[i]);
    }
    assert settling[..|settling|] == settling;
    messages := [];
    for i := 0 to |entries|
      invariant |messages| == i
      invariant forall j :: 0 <= j < i ==> messages[j] == Message(calls[j].id, Answered(entries[j], runs[j]))
    {
      messages := messages + [Message(entries[i].call.id, finalized[i].value)];
    }
  }
}
