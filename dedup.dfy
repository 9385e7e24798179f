/** The recent-patient list built by both the doctor dashboard and the
    patient search:
    `rows.map(e => e.patients).filter((p, i, self) => p && i === self.findIndex(q => q && q.id === p.id))`.
    Null patients are dropped and each id is kept at its first occurrence. */
module Dedup {
  import opened Wrappers
  import opened Records
  import opened Seqs

  /** Query rows as returned, at most `n` of them: `.limit(n)`. */
  function Limit<T>(rows: seq<T>, n: nat): (r: seq<T>)
    ensures |r| <= n && |r| <= |rows| && r <= rows
  {
    if |rows| <= n then rows else rows[..n]
  }

  predicate HasId(p: Option<Patient>, id: string) {
    p.Some? && p.value.id == id
  }

  /** `self.findIndex(q => q && q.id === id)`: the first index holding a
      patient with that id, or -1. */
  function FindIndex(s: seq<Option<Patient>>, id: string): (r: int)
    ensures -1 <= r < |s|
    ensures r >= 0 ==> HasId(s[r], id) && forall j :: 0 <= j < r ==> !HasId(s[j], id)
    ensures r == -1 ==> forall j :: 0 <= j < |s| ==> !HasId(s[j], id)
    decreases |s|
  {
    if s == [] then -1
    else if HasId(s[0], id) then 0
    else var r := FindIndex(s[1..], id); if r == -1 then -1 else r + 1
  }

  /** The filter's test at index `i`. */
  predicate Kept(s: seq<Option<Patient>>, i: nat)
    requires i < |s|
  {
    s[i].Some? && i == FindIndex(s, s[i].value.id)
  }

  function KeptFrom(s: seq<Option<Patient>>, i: nat): seq<Patient>
    requires i <= |s|
    decreases |s| - i
  {
    if i == |s| then [] else (if Kept(s, i) then [s[i].value] else []) + KeptFrom(s, i + 1)
  }

  /** `uniquePatients`. */
  function UniquePatients(s: seq<Option<Patient>>): seq<Patient> {
    KeptFrom(s, 0)
  }

  /** The patients present in `s[i..]`, nulls dropped, in order. */
  function Present(s: seq<Option<Patient>>, i: nat): seq<Patient>
    requires i <= |s|
    decreases |s| - i
  {
    if i == |s| then [] else (if s[i].Some? then [s[i].value] else []) + Present(s, i + 1)
  }

  predicate DistinctPatientIds(ps: seq<Patient>) {
    forall i, j :: 0 <= i < j < |ps| ==> ps[i].id != ps[j].id
  }

  /** Everything kept from `s[i..]` is a first occurrence at some index from `i` on. */
  lemma {:induction false} KeptFromOrigin(s: seq<Option<Patient>>, i: nat, p: Patient)
    requires i <= |s| && p in KeptFrom(s, i)
    ensures exists j :: i <= j < |s| && Kept(s, j) && s[j].value == p
    decreases |s| - i
  {
    if i < |s| {
      if !(Kept(s, i) && s[i].value == p) {
        KeptFromOrigin(s, i + 1, p);
      }
    }
  }

  /** Every first occurrence at an index from `i` on is kept. */
  lemma {:induction false} KeptFromComplete(s: seq<Option<Patient>>, i: nat, j: nat)
    requires i <= j < |s| && Kept(s, j)
    ensures s[j].value in KeptFrom(s, i)
    decreases |s| - i
  {
    if i < j {
      KeptFromComplete(s, i + 1, j);
    }
  }

  lemma {:induction false} KeptFromDistinct(s: seq<Option<Patient>>, i: nat)
    requires i <= |s|
    ensures DistinctPatientIds(KeptFrom(s, i))
    decreases |s| - i
  {
    if i < |s| {
      KeptFromDistinct(s, i + 1);
      if Kept(s, i) {
        var rest := KeptFrom(s, i + 1);
        forall k | 0 <= k < |rest| ensures rest[k].id != s[i].value.id {
          KeptFromOrigin(s, i + 1, rest[k]);
        }
        var r := [s[i].value] + rest;
        forall a, b | 0 <= a < b < |r| ensures r[a].id != r[b].id {
          assert r[b] == rest[b - 1];
          if a > 0 { assert r[a] == rest[a - 1]; }
        }
      }
    }
  }

  lemma {:induction false} KeptFromSubsequence(s: seq<Option<Patient>>, i: nat)
    requires i <= |s|
    ensures IsSubsequence(KeptFrom(s, i), Present(s, i))
    ensures |KeptFrom(s, i)| <= |s| - i
    decreases |s| - i
  {
    if i < |s| {
      KeptFromSubsequence(s, i + 1);
      if Kept(s, i) {
        ConsBoth(s[i].value, KeptFrom(s, i + 1), Present(s, i + 1));
      } else if s[i].Some? {
        assert KeptFrom(s, i) == KeptFrom(s, i + 1);
        ConsRight(s[i].value, KeptFrom(s, i + 1), Present(s, i + 1));
      } else {
        assert KeptFrom(s, i) == KeptFrom(s, i + 1);
        assert Present(s, i) == Present(s, i + 1);
      }
    }
  }

  /** The de-duplicated list: no id twice; a patient is listed exactly when
      it is the first non-null entry with its id; the order of the non-null
      entries is kept; it is no longer than the input. */
  lemma UniquePatientsSpec(s: seq<Option<Patient>>)
    ensures DistinctPatientIds(UniquePatients(s))
    ensures forall p :: p in UniquePatients(s) <==> exists j :: 0 <= j < |s| && Kept(s, j) && s[j].value == p
    ensures IsSubsequence(UniquePatients(s), Present(s, 0))
    ensures |UniquePatients(s)| <= |s|
  {
    KeptFromDistinct(s, 0);
    KeptFromSubsequence(s, 0);
    forall p ensures p in UniquePatients(s) <==> exists j :: 0 <= j < |s| && Kept(s, j) && s[j].value == p {
      if p in UniquePatients(s) {
        KeptFromOrigin(s, 0, p);
      }
      if exists j :: 0 <= j < |s| && Kept(s, j) && s[j].value == p {
        var j :| 0 <= j < |s| && Kept(s, j) && s[j].value == p;
        KeptFromComplete(s, 0, j);
      }
    }
  }

  /** Every id present in the input is represented, by its first occurrence. */
  lemma EveryIdRepresented(s: seq<Option<Patient>>, j: nat)
    requires j < |s| && s[j].Some?
    ensures var k := FindIndex(s, s[j].value.id);
      0 <= k <= j && s[k].value in UniquePatients(s)
  {
    var k := FindIndex(s, s[j].value.id);
    assert Kept(s, k);
    KeptFromComplete(s, 0, k);
  }
}
