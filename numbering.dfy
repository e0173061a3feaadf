/**
 * The puppet numbering table of api/index.js: a dictionary from a provider
 * user id to the ordinal ("puppet number") first handed to that user.
 * This module holds the value-level specification of one assignment and of
 * a run of assignments, and the invariant they keep; the table itself, which
 * the source mutates in place, is the `puppetDB` field of `HertaApp.App`.
 */
module Numbering {
  import opened Wrappers

  type Table = map<string, nat>

  /** The ordinals 1..n. */
  ghost function Ordinals(n: nat): set<nat>
  {
    if n == 0 then {} else Ordinals(n - 1) + {n}
  }

  lemma {:induction false} InOrdinals(n: nat, v: nat)
    ensures v in Ordinals(n) <==> 1 <= v <= n
  {
    if n > 0 {
      InOrdinals(n - 1, v);
    }
  }

  /** No two ids share an ordinal. */
  ghost predicate Injective(m: Table)
  {
    forall a, b :: a in m && b in m && m[a] == m[b] ==> a == b
  }

  /** The table invariant: every ordinal lies in 1..|m| and is used once. */
  ghost predicate WellNumbered(m: Table)
  {
    && (forall id :: id in m ==> 1 <= m[id] <= |m|)
    && Injective(m)
  }

  /** `puppetDB[id]`: the stored number, or `undefined` for an id that is no key. */
  function Lookup(m: Table, id: string): Option<nat>
  {
    if id in m then Some(m[id]) else None
  }

  /** JavaScript truthiness of a looked-up number: `undefined` and `0` are falsy. */
  predicate TruthyNumber(v: Option<nat>)
  {
    v.Some? && v.value != 0
  }

  /**
   * The test `!puppetDB[id]`. Under the table invariant it holds exactly
   * when `id` is not yet a key.
   */
  function IsUnseen(m: Table, id: string): (r: bool)
    ensures WellNumbered(m) ==> (r <==> id !in m)
  {
    !TruthyNumber(Lookup(m, id))
  }

  /**
   * One assignment as the source writes it: an unseen id gets
   * `Object.keys(puppetDB).length + 1` and is stored; a seen id gets its
   * stored number back. Returns the new table and the number. Whatever the
   * table holds, the id ends up stored under the returned number; a new id gets the old size plus one,
   * and an id stored with a non-zero number leaves the table as it was
   * and gets that number back.
   */
  function Assign(m: Table, id: string): (r: (Table, nat))
    ensures id in r.0 && r.0[id] == r.1
    ensures id !in m ==> r.1 == |m| + 1
    ensures id in m && m[id] != 0 ==> r == (m, m[id])
  {
    if IsUnseen(m, id) then
      var n := |m| + 1;
      (m[id := n], n)
    else
      (m, m[id])
  }

  /** A new id gets the old size plus one, and the table grows by exactly that entry. */
  lemma AssignUnseen(m: Table, id: string)
    requires id !in m
    ensures Assign(m, id).1 == |m| + 1
    ensures Assign(m, id).0 == m[id := |m| + 1]
    ensures |Assign(m, id).0| == |m| + 1
  {
  }

  /** A known id gets its stored number back and the table is left as it was. */
  lemma AssignSeen(m: Table, id: string)
    requires WellNumbered(m)
    requires id in m
    ensures Assign(m, id) == (m, m[id])
  {
  }

  /**
   * Assignment adds no key but `id` and never changes or removes another
   * id's entry.
   */
  lemma AssignKeepsOthers(m: Table, id: string)
    ensures forall k :: k in Assign(m, id).0 <==> k in m || k == id
    ensures forall k :: k in m && k != id ==> k in Assign(m, id).0 && Assign(m, id).0[k] == m[k]
  {
  }

  /** Every assignment keeps the invariant. */
  lemma AssignWellNumbered(m: Table, id: string)
    requires WellNumbered(m)
    ensures WellNumbered(Assign(m, id).0)
  {
    if id !in m {
      var m' := m[id := |m| + 1];
      assert |m'| == |m| + 1;
      forall a, b | a in m' && b in m' && m'[a] == m'[b]
        ensures a == b
      {
        if a != id && b != id {
          assert m[a] == m[b];
        }
      }
    }
  }

  /** Asking twice for the same id gives the same number and the same table. */
  lemma AssignIdempotent(m: Table, id: string)
    requires WellNumbered(m)
    ensures Assign(Assign(m, id).0, id) == Assign(m, id)
  {
    AssignWellNumbered(m, id);
  }

  lemma {:induction false} OrdinalsSize(n: nat)
    ensures |Ordinals(n)| == n
  {
    if n > 0 {
      OrdinalsSize(n - 1);
      InOrdinals(n - 1, n);
    }
  }

  /** An injective table has as many distinct ordinals as keys. */
  lemma {:induction false} InjectiveValuesSize(m: Table)
    requires Injective(m)
    ensures |m.Values| == |m|
    decreases |m|
  {
    if m != map[] {
      var k :| k in m;
      var rest := m - {k};
      assert rest.Keys == m.Keys - {k};
      assert |rest| == |m| - 1;
      forall v | v in m.Values - {m[k]} ensures v in rest.Values {
        var a :| a in m && m[a] == v;
        assert a != k;
        assert a in rest && rest[a] == v;
      }
      forall v | v in rest.Values ensures v in m.Values - {m[k]} {
        var a :| a in rest && rest[a] == v;
        assert a in m && m[a] == v;
      }
      assert rest.Values == m.Values - {m[k]};
      InjectiveValuesSize(rest);
    }
  }

  /**
   * The invariant pins down the numbers in use: they are exactly 1..|m|,
   * each used once.
   */
  lemma {:induction false} WellNumberedValues(m: Table)
    requires WellNumbered(m)
    ensures m.Values == Ordinals(|m|)
  {
    InjectiveValuesSize(m);
    OrdinalsSize(|m|);
    var all := Ordinals(|m|);
    forall v | v in m.Values ensures v in all {
      var a :| a in m && m[a] == v;
      InOrdinals(|m|, v);
    }
    SameSizeSubset(m.Values, all);
  }

  lemma SameSizeSubset(a: set<nat>, b: set<nat>)
    requires a <= b && |a| == |b|
    ensures a == b
  {
    assert b == a + (b - a);
    assert a * (b - a) == {};
    assert |b - a| == 0;
  }

  /**
   * A run of callbacks, one per id in arrival order: the final table and the
   * number each callback received.
   */
  function AssignAll(m: Table, ids: seq<string>): (Table, seq<nat>)
  {
    if ids == [] then (m, [])
    else
      var prev := AssignAll(m, ids[..|ids| - 1]);
      var step := Assign(prev.0, ids[|ids| - 1]);
      (step.0, prev.1 + [step.1])
  }

  /** Over any run the invariant holds and every callback received a number. */
  lemma {:induction false} AssignAllInvariant(m: Table, ids: seq<string>)
    requires WellNumbered(m)
    ensures WellNumbered(AssignAll(m, ids).0)
    ensures |AssignAll(m, ids).1| == |ids|
  {
    if ids != [] {
      AssignAllInvariant(m, ids[..|ids| - 1]);
      AssignWellNumbered(AssignAll(m, ids[..|ids| - 1]).0, ids[|ids| - 1]);
    }
  }

  /**
   * Over any run the keys are the starting keys plus every id that asked,
   * and no entry present at the start changes.
   */
  lemma {:induction false} AssignAllKeys(m: Table, ids: seq<string>)
    requires WellNumbered(m)
    ensures forall id :: id in AssignAll(m, ids).0 <==> id in m || id in ids
    ensures forall id :: id in m ==> AssignAll(m, ids).0[id] == m[id]
  {
    if ids != [] {
      var front, last := ids[..|ids| - 1], ids[|ids| - 1];
      AssignAllKeys(m, front);
      AssignAllInvariant(m, front);
      var prev := AssignAll(m, front).0;
      var next := Assign(prev, last).0;
      assert AssignAll(m, ids).0 == next;
      AssignKeepsOthers(prev, last);
      if last in prev {
        AssignSeen(prev, last);
      }
      assert ids == front + [last];
    }
  }

  /**
   * Each callback's number is the one the final table still holds for its
   * id: numbers are never reassigned.
   */
  lemma {:induction false} AssignAllStable(m: Table, ids: seq<string>)
    requires WellNumbered(m)
    ensures |AssignAll(m, ids).1| == |ids|
    ensures forall i :: 0 <= i < |ids| ==>
              ids[i] in AssignAll(m, ids).0 && AssignAll(m, ids).1[i] == AssignAll(m, ids).0[ids[i]]
  {
    if ids != [] {
      var front, last := ids[..|ids| - 1], ids[|ids| - 1];
      AssignAllStable(m, front);
      AssignAllInvariant(m, front);
      var prev := AssignAll(m, front);
      var step := Assign(prev.0, last);
      var nums := prev.1 + [step.1];
      assert AssignAll(m, ids) == (step.0, nums);
      forall i | 0 <= i < |ids|
        ensures ids[i] in step.0 && nums[i] == step.0[ids[i]]
      {
        if i < |front| {
          var k := front[i];
          assert ids[i] == k && nums[i] == prev.1[i];
          assert k in prev.0 && prev.1[i] == prev.0[k];
          if k == last {
            AssignSeen(prev.0, k);
          } else {
            AssignKeepsOthers(prev.0, last);
          }
        }
      }
    }
  }

  /**
   * Starting from the empty table, N distinct ids arriving one after another
   * receive 1, 2, ..., N in arrival order, with no gap and no repeat.
   */
  lemma {:induction false} FirstSeenOrder(ids: seq<string>)
    requires forall i, j :: 0 <= i < j < |ids| ==> ids[i] != ids[j]
    ensures |AssignAll(map[], ids).0| == |ids|
    ensures |AssignAll(map[], ids).1| == |ids|
    ensures forall i :: 0 <= i < |ids| ==> AssignAll(map[], ids).1[i] == i + 1
  {
    if ids != [] {
      var front, last := ids[..|ids| - 1], ids[|ids| - 1];
      FirstSeenOrder(front);
      AssignAllKeys(map[], front);
      AssignAllInvariant(map[], front);
      var prev := AssignAll(map[], front).0;
      assert last !in front by {
        assert forall i :: 0 <= i < |front| ==> front[i] == ids[i] != ids[|ids| - 1];
      }
      AssignUnseen(prev, last);
    }
  }
}
