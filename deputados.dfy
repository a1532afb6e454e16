/**
 * The directory records and the deduplication of a fetched page.
 *
 * The component keeps a record only when its position is the position at
 * which `findIndex` first meets the record's `id`; `Dedupe` is that filter,
 * and the lemmas below show what it guarantees: the first record of every
 * `id` survives, nothing else does, the survivors keep their input order,
 * and filtering a second time changes nothing.
 */
module Deputados {
  import opened ArraySearch

  /** One official as the directory API returns it; `id` is its identity. */
  datatype Deputado = Deputado(id: int, nome: string, siglaPartido: string, siglaUf: string, urlFoto: string)

  /** `s.findIndex(d => d.id === id)`: where `id` first occurs in `s`, or -1. */
  function FirstIndexOfId(s: seq<Deputado>, id: int): (k: int)
    ensures -1 <= k < |s|
    ensures 0 <= k ==> s[k].id == id && forall j :: 0 <= j < k ==> s[j].id != id
    ensures k == -1 ==> forall j :: 0 <= j < |s| ==> s[j].id != id
  {
    FindIndex(s, (d: Deputado) => d.id == id)
  }

  /** No two records of `s` share an `id`. */
  predicate IdsDistinct(s: seq<Deputado>) {
    forall a, b :: 0 <= a < b < |s| ==> s[a].id != s[b].id
  }

  /** The filter applied to the positions `i..` of `s` (the whole of `s` is the `self` argument). */
  function KeptFrom(s: seq<Deputado>, i: nat): (r: seq<Deputado>)
    requires i <= |s|
    decreases |s| - i
  {
    if i == |s| then []
    else (if FirstIndexOfId(s, s[i].id) == i then [s[i]] else []) + KeptFrom(s, i + 1)
  }

  /** `s.filter((d, index, self) => index === self.findIndex(x => x.id === d.id))`. */
  function Dedupe(s: seq<Deputado>): seq<Deputado> {
    KeptFrom(s, 0)
  }

  lemma {:induction false} KeptFromLength(s: seq<Deputado>, i: nat)
    requires i <= |s|
    ensures |KeptFrom(s, i)| <= |s| - i
    decreases |s| - i
  {
    if i < |s| {
      KeptFromLength(s, i + 1);
    }
  }

  /** Everything the filter keeps from position `i` on is the first record of its id, found at or after `i`. */
  lemma {:induction false} KeptFromSurvivors(s: seq<Deputado>, i: nat)
    requires i <= |s|
    ensures forall y :: y in KeptFrom(s, i) ==>
      i <= FirstIndexOfId(s, y.id) && s[FirstIndexOfId(s, y.id)] == y
    decreases |s| - i
  {
    if i < |s| {
      KeptFromSurvivors(s, i + 1);
      var head := if FirstIndexOfId(s, s[i].id) == i then [s[i]] else [];
      var rest := KeptFrom(s, i + 1);
      assert KeptFrom(s, i) == head + rest;
      forall y | y in KeptFrom(s, i)
        ensures i <= FirstIndexOfId(s, y.id) && s[FirstIndexOfId(s, y.id)] == y
      {
        if y !in rest {
          assert y in head;
        }
      }
    }
  }

  /** The records of `r` appear in `s` at increasing first positions. */
  predicate InInputOrder(s: seq<Deputado>, r: seq<Deputado>) {
    forall a, b :: 0 <= a < b < |r| ==> FirstIndexOfId(s, r[a].id) < FirstIndexOfId(s, r[b].id)
  }

  lemma PrependInInputOrder(s: seq<Deputado>, x: Deputado, rest: seq<Deputado>)
    requires InInputOrder(s, rest)
    requires forall y :: y in rest ==> FirstIndexOfId(s, x.id) < FirstIndexOfId(s, y.id)
    ensures InInputOrder(s, [x] + rest)
  {
    var r := [x] + rest;
    forall a, b | 0 <= a < b < |r|
      ensures FirstIndexOfId(s, r[a].id) < FirstIndexOfId(s, r[b].id)
    {
      assert r[b] == rest[b - 1];
      if a > 0 {
        assert r[a] == rest[a - 1];
      }
    }
  }

  /** The records the filter keeps from position `i` on appear in increasing input position. */
  lemma {:induction false} KeptFromOrder(s: seq<Deputado>, i: nat)
    requires i <= |s|
    ensures InInputOrder(s, KeptFrom(s, i))
    decreases |s| - i
  {
    if i < |s| {
      KeptFromOrder(s, i + 1);
      var rest := KeptFrom(s, i + 1);
      if FirstIndexOfId(s, s[i].id) == i {
        KeptFromSurvivors(s, i + 1);
        PrependInInputOrder(s, s[i], rest);
        assert KeptFrom(s, i) == [s[i]] + rest;
      } else {
        assert KeptFrom(s, i) == rest;
      }
    }
  }

  /** Every first occurrence at or after position `i` is kept. */
  lemma {:induction false} KeptFromComplete(s: seq<Deputado>, i: nat)
    requires i <= |s|
    ensures forall j :: i <= j < |s| && FirstIndexOfId(s, s[j].id) == j ==> s[j] in KeptFrom(s, i)
    decreases |s| - i
  {
    if i < |s| {
      KeptFromComplete(s, i + 1);
      var head := if FirstIndexOfId(s, s[i].id) == i then [s[i]] else [];
      assert KeptFrom(s, i) == head + KeptFrom(s, i + 1);
    }
  }

  /**
   * Deduplication keeps exactly the first record of each `id`, in input order:
   * every survivor is the first record of its `id` in the input, the first
   * record of every input `id` survives, the survivors' ids are distinct,
   * and their input positions increase.
   */
  lemma DedupeSpec(s: seq<Deputado>)
    ensures |Dedupe(s)| <= |s|
    ensures forall y :: y in Dedupe(s) ==> y in s && s[FirstIndexOfId(s, y.id)] == y
    ensures forall j :: 0 <= j < |s| ==> s[FirstIndexOfId(s, s[j].id)] in Dedupe(s)
    ensures InInputOrder(s, Dedupe(s))
    ensures IdsDistinct(Dedupe(s))
  {
    KeptFromLength(s, 0);
    KeptFromSurvivors(s, 0);
    KeptFromOrder(s, 0);
    KeptFromComplete(s, 0);
    var r := Dedupe(s);
    forall j | 0 <= j < |s|
      ensures s[FirstIndexOfId(s, s[j].id)] in r
    {
      var f := FirstIndexOfId(s, s[j].id);
      assert 0 <= f;
      assert FirstIndexOfId(s, s[f].id) == f;
    }
    forall a, b | 0 <= a < b < |r|
      ensures r[a].id != r[b].id
    {
      assert r[a] in r && r[b] in r;
    }
  }

  /** On a list whose ids are already distinct, each record is the first of its id. */
  lemma DistinctFirstIndex(t: seq<Deputado>, j: nat)
    requires IdsDistinct(t) && j < |t|
    ensures FirstIndexOfId(t, t[j].id) == j
  {
  }

  lemma {:induction false} KeptFromDistinct(t: seq<Deputado>, i: nat)
    requires IdsDistinct(t) && i <= |t|
    ensures KeptFrom(t, i) == t[i..]
    decreases |t| - i
  {
    if i < |t| {
      KeptFromDistinct(t, i + 1);
      DistinctFirstIndex(t, i);
      assert t[i..] == [t[i]] + t[i + 1..];
    }
  }

  /** Deduplication leaves a list alone exactly when its ids are already distinct. */
  lemma DedupeFixedIff(t: seq<Deputado>)
    ensures Dedupe(t) == t <==> IdsDistinct(t)
  {
    if IdsDistinct(t) {
      KeptFromDistinct(t, 0);
      assert t[0..] == t;
    } else {
      DedupeSpec(t);
    }
  }

  /** Deduplication is idempotent. */
  lemma DedupeIdempotent(s: seq<Deputado>)
    ensures Dedupe(Dedupe(s)) == Dedupe(s)
  {
    DedupeSpec(s);
    DedupeFixedIff(Dedupe(s));
  }

  /** A page listing ids 1, 2, 1 comes out as the first two records, ids 1 and 2 in that order. */
  lemma DedupeExample(a: Deputado, b: Deputado, c: Deputado)
    requires a.id == 1 && b.id == 2 && c.id == 1
    ensures Dedupe([a, b, c]) == [a, b]
  {
    var s := [a, b, c];
    assert s[0] == a && s[1] == b && s[2] == c;
    assert FirstIndexOfId(s, c.id) == 0;
    var k := FirstIndexOfId(s, b.id);
    assert k != -1 && k != 0 by { assert s[1].id == b.id; }
    assert k == 1;
    assert KeptFrom(s, 3) == [];
    assert KeptFrom(s, 2) == [];
    assert KeptFrom(s, 1) == [b];
  }
}
