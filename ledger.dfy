/** The request ledger's bookkeeping: which entries of a callback table a
    pass over a list of ids runs, the runs that pass records, and the order
    in which pending calls are ended. */
module Ledger {
  import opened Values
  import opened Decimal
  import opened Protocol

  /** An entry of `_callbacks` or `_updatedCallbacks`. `call` registers a
      wrapper that first deletes its id from `_pendingMethods`;
      `callWithRandomSeed` and `subscribe` register the caller's function. */
  datatype Handler = PendingWrapper | Plain

  /** k is one of "1", "2", ..., the decimal strings of the values a
      counter that has reached n went through. */
  ghost predicate Issued(k: string, n: nat)
    decreases n
  {
    n > 0 && (k == DecimalString(n) || Issued(k, n - 1))
  }

  /** Every handed-out id was drawn from the counter. */
  ghost predicate IdsInv(issued: set<string>, nextId: nat) {
    forall k | k in issued :: Issued(k, nextId)
  }

  /** A drawn id is the canonical decimal string of a value already
      reached. */
  lemma {:induction false} IssuedCanonical(k: string, n: nat)
    requires Issued(k, n)
    ensures k == DecimalString(DecimalValue(k)) && 1 <= DecimalValue(k) <= n
    decreases n
  {
    if k == DecimalString(n) {
      DecimalRoundTrip(n);
    } else {
      IssuedCanonical(k, n - 1);
    }
  }

  /** The next value's string has not been drawn yet. */
  lemma NextIdFresh(n: nat)
    ensures !Issued(DecimalString(n + 1), n)
  {
    DecimalRoundTrip(n + 1);
    if Issued(DecimalString(n + 1), n) {
      IssuedCanonical(DecimalString(n + 1), n);
      assert false;
    }
  }

  /** Both tables hold only handed-out ids, and a pending method call has
      both of its wrappers registered. */
  ghost predicate TablesInv(issued: set<string>, callbacks: map<string, Handler>, updated: map<string, Handler>, pending: set<string>) {
    && callbacks.Keys <= issued
    && updated.Keys <= issued
    && pending <= callbacks.Keys
    && pending <= updated.Keys
    && forall k | k in pending :: callbacks[k] == PendingWrapper && updated[k] == PendingWrapper
  }

  /** Each result-table entry has run at most once, and one that has run is
      no longer registered. */
  ghost predicate ResultLogInv(issued: set<string>, callbacks: map<string, Handler>, log: seq<Firing>) {
    && (forall i, j | 0 <= i < j < |log| :: log[i].id != log[j].id)
    && (forall i | 0 <= i < |log| :: log[i].id in issued && log[i].id !in callbacks)
  }

  /** The same for the updated table, whose runs are recorded by id. */
  ghost predicate UpdatedLogInv(issued: set<string>, updated: map<string, Handler>, log: seq<string>) {
    && Distinct(log)
    && (forall i | 0 <= i < |log| :: log[i] in issued && log[i] !in updated)
  }

  /** The ids a pass over `ids` runs, in order (the `updated` and `ready`
      loops): an id runs when it has an entry, and the entry is deleted when
      it runs, so a repeated id runs only the first time. */
  function Fired(table: map<string, Handler>, ids: seq<string>): seq<string>
    decreases |ids|
  {
    if ids == [] then []
    else
      var prefix, last := ids[..|ids| - 1], ids[|ids| - 1];
      Fired(table, prefix) + (if last in table && last !in prefix then [last] else [])
  }

  /** A pass runs each id that has an entry exactly once, and nothing
      else. */
  lemma {:induction false} FiredFacts(table: map<string, Handler>, ids: seq<string>)
    ensures Distinct(Fired(table, ids))
    ensures forall k :: k in Fired(table, ids) <==> k in ids && k in table
    decreases |ids|
  {
    if ids != [] {
      var prefix, last := ids[..|ids| - 1], ids[|ids| - 1];
      assert forall k :: k in ids <==> k in prefix || k == last;
      FiredFacts(table, prefix);
    }
  }

  /** One result-callback run per id, in order, all with the same arguments. */
  function ResultFirings(ids: seq<string>, c: Completion): (r: seq<Firing>)
    ensures |r| == |ids|
  {
    seq(|ids|, i requires 0 <= i < |ids| => Firing(ids[i], c))
  }

  /** Extending the pass by one id runs that id when it still has an
      entry. */
  lemma FiredStep(table: map<string, Handler>, ids: seq<string>, x: string)
    ensures Fired(table, ids + [x]) == Fired(table, ids) + if x in table && x !in ids then [x] else []
  {
    assert (ids + [x])[..|ids|] == ids;
  }

  lemma ResultFiringsStep(ids: seq<string>, x: string, c: Completion)
    ensures ResultFirings(ids + [x], c) == ResultFirings(ids, c) + [Firing(x, c)]
  {
  }

  /** One step of a pass over `ids`: after ids[..i] the table and the
      pending set have lost exactly those ids, and ids[i] runs exactly
      when it is still in the table. */
  lemma PassStep(table: map<string, Handler>, pending: set<string>, ids: seq<string>, i: nat)
    requires i < |ids|
    ensures table - SetOf(ids[..i + 1]) == (table - SetOf(ids[..i])) - {ids[i]}
    ensures pending - SetOf(ids[..i + 1]) == (pending - SetOf(ids[..i])) - {ids[i]}
    ensures Fired(table, ids[..i + 1])
         == Fired(table, ids[..i]) + if ids[i] in table - SetOf(ids[..i]) then [ids[i]] else []
  {
    assert ids[..i + 1] == ids[..i] + [ids[i]];
    MapWithoutStep(table, ids[..i], ids[i]);
    SetWithoutStep(pending, ids[..i], ids[i]);
    FiredStep(table, ids[..i], ids[i]);
  }

  /** Registering a pending call's wrappers under a fresh id keeps the
      ledger invariants. */
  lemma RegisterPendingKeeps(issued: set<string>, callbacks: map<string, Handler>, updated: map<string, Handler>,
                             pending: set<string>, rlog: seq<Firing>, ulog: seq<string>, id: string)
    requires TablesInv(issued, callbacks, updated, pending)
    requires ResultLogInv(issued, callbacks, rlog) && UpdatedLogInv(issued, updated, ulog)
    requires id !in issued
    ensures TablesInv(issued + {id}, callbacks[id := PendingWrapper], updated[id := PendingWrapper], pending + {id})
    ensures ResultLogInv(issued + {id}, callbacks[id := PendingWrapper], rlog)
    ensures UpdatedLogInv(issued + {id}, updated[id := PendingWrapper], ulog)
  {
  }

  /** Registering the caller's own callbacks, or none, under a fresh id keeps
      the ledger invariants. */
  lemma RegisterPlainKeeps(issued: set<string>, callbacks: map<string, Handler>, updated: map<string, Handler>,
                           pending: set<string>, rlog: seq<Firing>, ulog: seq<string>, id: string,
                           withResult: bool, withUpdated: bool)
    requires TablesInv(issued, callbacks, updated, pending)
    requires ResultLogInv(issued, callbacks, rlog) && UpdatedLogInv(issued, updated, ulog)
    requires id !in issued
    ensures var callbacks' := if withResult then callbacks[id := Plain] else callbacks;
      var updated' := if withUpdated then updated[id := Plain] else updated;
      && TablesInv(issued + {id}, callbacks', updated', pending)
      && ResultLogInv(issued + {id}, callbacks', rlog)
      && UpdatedLogInv(issued + {id}, updated', ulog)
  {
  }

  /** Running the result entry for id and deleting it keeps the invariants;
      when the entry is a pending call's wrapper the id leaves `pending`. */
  lemma FireResultKeeps(issued: set<string>, callbacks: map<string, Handler>, updated: map<string, Handler>,
                        pending: set<string>, rlog: seq<Firing>, id: string, c: Completion)
    requires TablesInv(issued, callbacks, updated, pending) && ResultLogInv(issued, callbacks, rlog)
    requires id in callbacks
    ensures var pending' := if callbacks[id] == PendingWrapper then pending - {id} else pending;
      && pending' == pending - {id}
      && TablesInv(issued, callbacks - {id}, updated, pending')
      && ResultLogInv(issued, callbacks - {id}, rlog + [Firing(id, c)])
  {
  }

  /** A whole `updated` pass keeps the invariants: the ids it runs leave the
      table and the pending set, and each joins the record once. */
  lemma UpdatedPassKeeps(issued: set<string>, callbacks: map<string, Handler>, updated: map<string, Handler>,
                         pending: set<string>, ulog: seq<string>, ids: seq<string>)
    requires TablesInv(issued, callbacks, updated, pending) && UpdatedLogInv(issued, updated, ulog)
    ensures TablesInv(issued, callbacks, updated - SetOf(ids), pending - SetOf(ids))
    ensures UpdatedLogInv(issued, updated - SetOf(ids), ulog + Fired(updated, ids))
  {
    FiredFacts(updated, ids);
    var log' := ulog + Fired(updated, ids);
    forall i, j | 0 <= i < j < |log'|
      ensures log'[i] != log'[j]
    {
      if j >= |ulog| {
        assert log'[j] in Fired(updated, ids);
      }
    }
  }

  /** The same for a `ready` pass over the result table. */
  lemma ResultPassKeeps(issued: set<string>, callbacks: map<string, Handler>, updated: map<string, Handler>,
                        pending: set<string>, rlog: seq<Firing>, ids: seq<string>)
    requires TablesInv(issued, callbacks, updated, pending) && ResultLogInv(issued, callbacks, rlog)
    ensures TablesInv(issued, callbacks - SetOf(ids), updated, pending - SetOf(ids))
    ensures ResultLogInv(issued, callbacks - SetOf(ids), rlog + ResultFirings(Fired(callbacks, ids), NoArguments))
  {
    var run := Fired(callbacks, ids);
    FiredFacts(callbacks, ids);
    var log' := rlog + ResultFirings(run, NoArguments);
    forall i | |rlog| <= i < |log'|
      ensures log'[i].id == run[i - |rlog|]
    {
    }
    forall i, j | 0 <= i < j < |log'|
      ensures log'[i].id != log'[j].id
    {
      if j >= |rlog| {
        assert log'[j].id in run;
      }
    }
  }

  /** Ending every pending call keeps the invariants: each pending id runs
      both of its wrappers once, and the pending set empties. */
  lemma DisconnectKeeps(issued: set<string>, callbacks: map<string, Handler>, updated: map<string, Handler>,
                        pending: set<string>, rlog: seq<Firing>, ulog: seq<string>, order: seq<string>)
    requires TablesInv(issued, callbacks, updated, pending)
    requires ResultLogInv(issued, callbacks, rlog) && UpdatedLogInv(issued, updated, ulog)
    requires SetOf(order) == pending && Distinct(order)
    ensures TablesInv(issued, callbacks - pending, updated - pending, {})
    ensures ResultLogInv(issued, callbacks - pending, rlog + ResultFirings(order, Disconnected))
    ensures UpdatedLogInv(issued, updated - pending, ulog + order)
  {
    var rlog' := rlog + ResultFirings(order, Disconnected);
    forall i | |rlog| <= i < |rlog'|
      ensures rlog'[i].id == order[i - |rlog|]
    {
    }
    forall i, j | 0 <= i < j < |rlog'|
      ensures rlog'[i].id != rlog'[j].id
    {
      if j >= |rlog| {
        assert rlog'[j].id in order;
      }
    }
    var ulog' := ulog + order;
    forall i, j | 0 <= i < j < |ulog'|
      ensures ulog'[i] != ulog'[j]
    {
      if j >= |ulog| {
        assert ulog'[j] in order;
      }
    }
  }

  /** A pass over ids none of which has an entry runs nothing. */
  lemma {:induction false} FiredNone(table: map<string, Handler>, ids: seq<string>)
    requires forall k | k in ids :: k !in table
    ensures Fired(table, ids) == []
    decreases |ids|
  {
    if ids != [] {
      var prefix := ids[..|ids| - 1];
      assert forall k | k in prefix :: k in ids;
      FiredNone(table, prefix);
    }
  }

  /** A second pass over the same ids runs nothing: every entry it could run
      was deleted by the first. */
  lemma SecondPassFiresNothing(table: map<string, Handler>, ids: seq<string>)
    ensures Fired(table - SetOf(ids), ids) == []
  {
    FiredNone(table - SetOf(ids), ids);
  }

  /** Every non-empty set has a member whose key is least. */
  lemma {:induction false} LeastOf(ids: set<string>, key: string -> nat) returns (m: string)
    requires ids != {}
    ensures m in ids && forall o | o in ids :: key(m) <= key(o)
    decreases ids
  {
    var x :| x in ids;
    if ids == {x} {
      m := x;
    } else {
      var m' := LeastOf(ids - {x}, key);
      m := if key(x) <= key(m') then x else m';
    }
  }

  /** Keys strictly increase along `s`. */
  ghost predicate IncreasingBy(s: seq<string>, key: string -> nat) {
    forall i, j | 0 <= i < j < |s| :: key(s[i]) < key(s[j])
  }

  lemma IncreasingDistinct(s: seq<string>, key: string -> nat)
    requires IncreasingBy(s, key)
    ensures Distinct(s)
  {
  }

  /** Putting the least member in front of the others, listed in order,
      lists them all in order. */
  lemma ConsLeast(ids: set<string>, m: string, rest: seq<string>, key: string -> nat)
    requires m in ids && forall o | o in ids - {m} :: key(m) < key(o)
    requires SetOf(rest) == ids - {m} && IncreasingBy(rest, key)
    ensures SetOf([m] + rest) == ids && IncreasingBy([m] + rest, key)
  {
    SetOfPrepend(m, rest);
    forall i, j | 0 <= i < j < |[m] + rest|
      ensures key(([m] + rest)[i]) < key(([m] + rest)[j])
    {
      if i == 0 {
        assert ([m] + rest)[j] == rest[j - 1] && rest[j - 1] in SetOf(rest);
      } else {
        assert ([m] + rest)[i] == rest[i - 1] && ([m] + rest)[j] == rest[j - 1];
      }
    }
  }

  /** The members of `ids` listed by increasing `key`, which tells them
      apart. */
  function SortedBy(ids: set<string>, key: string -> nat): (r: seq<string>)
    requires forall a, b | a in ids && b in ids && key(a) == key(b) :: a == b
    ensures SetOf(r) == ids && IncreasingBy(r, key)
    decreases ids
  {
    if ids == {} then []
    else
      assert exists m | m in ids :: forall o | o in ids :: key(m) <= key(o) by {
        var w := LeastOf(ids, key);
      }
      var m :| m in ids && forall o | o in ids :: key(m) <= key(o);
      var rest := SortedBy(ids - {m}, key);
      ConsLeast(ids, m, rest, key);
      [m] + rest
  }

  /** `_.keys` of a table whose keys are request ids: JavaScript lists
      integer-like keys in ascending numeric order. */
  function AscendingKeys(ids: set<string>): (r: seq<string>)
    requires forall k | k in ids :: k == DecimalString(DecimalValue(k))
    ensures SetOf(r) == ids && IncreasingBy(r, DecimalValue)
  {
    assert forall a, b | a in ids && b in ids && DecimalValue(a) == DecimalValue(b) :: a == b by {
      forall a, b | a in ids && b in ids && DecimalValue(a) == DecimalValue(b)
        ensures a == b
      {
        assert a == DecimalString(DecimalValue(a)) && b == DecimalString(DecimalValue(b));
      }
    }
    SortedBy(ids, DecimalValue)
  }
}
