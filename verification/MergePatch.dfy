/**
 JSON merge patches: `Diff` is how the tenant client computes the patch document, `Apply` is
 MergePatch(Target, Patch) of section 2 of RFC 7396.
 */
module MergePatch {
  import opened Wrappers
  import opened JsonValue

  /** The patch that leads from object a to object b; members whose objects agree are left out. */
  function Diff(a: Json, b: Json): Json
    requires a.Obj? && b.Obj?
    decreases b
  {
    Obj(map k | k in a.fields.Keys + b.fields.Keys && DiffMember(a, b, k).Some? :: DiffMember(a, b, k).value)
  }

  function DiffMember(a: Json, b: Json, k: string): Option<Json>
    requires a.Obj? && b.Obj?
    decreases b, 0
  {
    if k !in b.fields then
      if k in a.fields then Some(Null) else None
    else if k !in a.fields then
      Some(b.fields[k])
    else if a.fields[k].Obj? && b.fields[k].Obj? then
      var d := Diff(a.fields[k], b.fields[k]);
      if d.fields == map[] then None else Some(d)
    else
      if a.fields[k] == b.fields[k] then None else Some(b.fields[k])
  }

  function Apply(patch: Json, target: Json): Json
    decreases patch
  {
    if !patch.Obj? then patch else
    var base := if target.Obj? then target.fields else map[];
    Obj(map k | k in base.Keys + patch.fields.Keys && !(k in patch.fields && patch.fields[k].Null?) ::
      if k in patch.fields then Apply(patch.fields[k], if k in base then base[k] else Null) else base[k])
  }

  /**
   What a patch from a to b makes of one member of a third document: nothing if the member did
   not change, otherwise b's value, merged into the third document's where both are objects.
   */
  function Three(a: Option<Json>, b: Option<Json>, c: Option<Json>): Option<Json> {
    if a == b then c
    else if b.None? || b.value.Null? then None
    else if a.Some? && a.value.Obj? && b.value.Obj? then Some(Apply(Diff(a.value, b.value), c.GetOr(Null)))
    else Some(Apply(b.value, c.GetOr(Null)))
  }

  lemma {:induction false} DiffEmpty(a: Json, b: Json)
    requires a.Obj? && b.Obj?
    ensures Diff(a, b).fields == map[] <==> a == b
    decreases b
  {
    forall k | k in a.fields && k in b.fields && a.fields[k].Obj? && b.fields[k].Obj?
      ensures Diff(a.fields[k], b.fields[k]).fields == map[] <==> a.fields[k] == b.fields[k]
    {
      DiffEmpty(a.fields[k], b.fields[k]);
    }
    if Diff(a, b).fields == map[] {
      forall k | k in a.fields.Keys + b.fields.Keys
        ensures k in a.fields && k in b.fields && a.fields[k] == b.fields[k]
      {
        assert k !in Diff(a, b).fields;
      }
      assert a.fields == b.fields;
    }
  }

  /** Applying a computed patch works member by member, whatever document it is applied to. */
  lemma MergeMember(a: Json, b: Json, c: Json, k: string)
    requires a.Obj? && b.Obj?
    ensures Apply(Diff(a, b), c).Obj?
    ensures Member(Apply(Diff(a, b), c), k) == Three(Member(a, k), Member(b, k), Member(c, k))
  {
    if k in a.fields && k in b.fields && a.fields[k].Obj? && b.fields[k].Obj? {
      DiffEmpty(a.fields[k], b.fields[k]);
    }
    assert k in Diff(a, b).fields <==> DiffMember(a, b, k).Some?;
  }

  /**
   b holds no null that a does not hold at the same place. A merge patch cannot carry such a
   null: it would mean removal.
   */
  predicate NoFreshNull(a: Json, b: Json)
    requires a.Obj? && b.Obj?
    decreases b
  {
    forall k | k in b.fields ::
      if k in a.fields && a.fields[k] == b.fields[k] then true
      else if k in a.fields && a.fields[k].Obj? && b.fields[k].Obj? then NoFreshNull(a.fields[k], b.fields[k])
      else NullFree(b.fields[k])
  }

  lemma {:induction false} ApplyFresh(p: Json, t: Json)
    requires !t.Obj? && !p.Null?
    ensures Apply(p, t) == p <==> NullFree(p)
    decreases p
  {
    if p.Obj? {
      forall k | k in p.fields && !p.fields[k].Null?
        ensures Apply(p.fields[k], Null) == p.fields[k] <==> NullFree(p.fields[k])
      {
        ApplyFresh(p.fields[k], Null);
      }
      var r := Apply(p, t);
      if NullFree(p) {
        forall k ensures Member(r, k) == Member(p, k) {
          assert k in p.fields ==> NullFree(p.fields[k]);
        }
        SameMembers(r, p);
      } else {
        var k :| k in p.fields && !NullFree(p.fields[k]);
        assert Member(r, k) != Member(p, k);
      }
    }
  }

  /** Diff then apply gives the modified document back exactly when it has no fresh null. */
  lemma {:induction false} RoundTrip(a: Json, b: Json)
    requires a.Obj? && b.Obj?
    ensures Apply(Diff(a, b), a) == b <==> NoFreshNull(a, b)
    decreases b
  {
    var r := Apply(Diff(a, b), a);
    forall k
      ensures Member(r, k) == Three(Member(a, k), Member(b, k), Member(a, k))
      ensures k in b.fields ==>
        (Member(r, k) == Member(b, k) <==>
          if k in a.fields && a.fields[k] == b.fields[k] then true
          else if k in a.fields && a.fields[k].Obj? && b.fields[k].Obj? then NoFreshNull(a.fields[k], b.fields[k])
          else NullFree(b.fields[k]))
    {
      MergeMember(a, b, a, k);
      if k in b.fields && Member(a, k) != Member(b, k) && !b.fields[k].Null? {
        if k in a.fields && a.fields[k].Obj? && b.fields[k].Obj? {
          RoundTrip(a.fields[k], b.fields[k]);
        } else if !Member(a, k).GetOr(Null).Obj? {
          ApplyFresh(b.fields[k], Member(a, k).GetOr(Null));
        }
      }
    }
    if NoFreshNull(a, b) {
      SameMembers(r, b);
    }
  }

  lemma SameMembers(x: Json, y: Json)
    requires x.Obj? && y.Obj?
    requires forall k :: Member(x, k) == Member(y, k)
    ensures x == y
  {
    forall k ensures k in x.fields <==> k in y.fields
      ensures k in x.fields ==> x.fields[k] == y.fields[k]
    {
      assert Member(x, k) == Member(y, k);
    }
    assert x.fields == y.fields;
  }

  lemma {:induction false} NullFreeIsNotFresh(a: Json, b: Json)
    requires a.Obj? && b.Obj? && NullFree(b)
    ensures NoFreshNull(a, b)
    decreases b
  {
    forall k | k in a.fields && k in b.fields && a.fields[k].Obj? && b.fields[k].Obj?
      ensures NoFreshNull(a.fields[k], b.fields[k])
    {
      NullFreeIsNotFresh(a.fields[k], b.fields[k]);
    }
  }

  /** Sending the same patch again changes nothing. */
  lemma {:induction false} ApplyIdempotent(p: Json, t: Json)
    ensures Apply(p, Apply(p, t)) == Apply(p, t)
    decreases p
  {
    if p.Obj? {
      var once := Apply(p, t);
      var twice := Apply(p, once);
      forall k ensures Member(twice, k) == Member(once, k) {
        if k in p.fields && !p.fields[k].Null? {
          ApplyIdempotent(p.fields[k], Member(t, k).GetOr(Null));
        }
      }
      SameMembers(twice, once);
    }
  }

  /** The patch p says nothing about the path or anything on it below the root. */
  predicate Unmentioned(p: Json, path: seq<string>) {
    p.Obj? && path != [] && (path[0] !in p.fields || Unmentioned(p.fields[path[0]], path[1..]))
  }

  /** Going from a to b changes neither what is at the path nor, outside objects, anything above it. */
  predicate Untouched(a: Json, b: Json, path: seq<string>) {
    a == b ||
    (a.Obj? && b.Obj? && path != [] &&
     var x, y := Member(a, path[0]), Member(b, path[0]);
     x == y || (y.Some? && if x.Some? && x.value.Obj? then Untouched(x.value, y.value, path[1..])
                           else Unmentioned(y.value, path[1..])))
  }

  lemma {:induction false} ApplyKeepsUnmentioned(p: Json, t: Json, path: seq<string>)
    requires Unmentioned(p, path)
    ensures Get(Apply(p, t), path) == Get(t, path)
    decreases p
  {
    var k := path[0];
    if k in p.fields {
      ApplyKeepsUnmentioned(p.fields[k], Member(t, k).GetOr(Null), path[1..]);
      assert Member(Apply(p, t), k) == Some(Apply(p.fields[k], Member(t, k).GetOr(Null)));
      assert Get(Null, path[1..]) == if path[1..] == [] then Some(Null) else None;
    } else {
      assert Member(Apply(p, t), k) == Member(t, k);
    }
  }

  lemma {:induction false} ApplyInstallsLeaf(p: Json, t: Json, path: seq<string>)
    requires Get(p, path).Some? && !Get(p, path).value.Obj? && !Get(p, path).value.Null?
    ensures Get(Apply(p, t), path) == Get(p, path)
    decreases p
  {
    if path != [] {
      var k := path[0];
      ApplyInstallsLeaf(p.fields[k], Member(t, k).GetOr(Null), path[1..]);
      assert !p.fields[k].Null?;
      assert Member(Apply(p, t), k) == Some(Apply(p.fields[k], Member(t, k).GetOr(Null)));
    }
  }

  /**
   Patching a document c that others may have changed since a was read: every path that going
   from a to b leaves alone keeps c's value, every changed leaf gets b's value, and every path
   that b dropped is gone.
   */
  lemma {:induction false} PatchIsFaithful(a: Json, b: Json, c: Json, path: seq<string>)
    requires a.Obj? && b.Obj?
    ensures Untouched(a, b, path) && (c.Obj? || path != []) ==> Get(Apply(Diff(a, b), c), path) == Get(c, path)
    ensures Get(b, path).Some? && !Get(b, path).value.Obj? && !Get(b, path).value.Null? && Get(a, path) != Get(b, path)
            ==> Get(Apply(Diff(a, b), c), path) == Get(b, path)
    ensures Get(a, path).Some? && Get(b, path).None? ==> Get(Apply(Diff(a, b), c), path).None?
    decreases b
  {
    var r := Apply(Diff(a, b), c);
    if path == [] {
      if a == b && c.Obj? {
        forall k ensures Member(r, k) == Member(c, k) {
          MergeMember(a, b, c, k);
        }
        SameMembers(r, c);
      }
    } else {
      var k, rest := path[0], path[1..];
      MergeMember(a, b, c, k);
      var x, y, z := Member(a, k), Member(b, k), Member(c, k);
      assert Get(Null, rest) == if rest == [] then Some(Null) else None;
      if x != y && y.Some? && !y.value.Null? {
        if x.Some? && x.value.Obj? && y.value.Obj? {
          PatchIsFaithful(x.value, y.value, z.GetOr(Null), rest);
          assert Untouched(x.value, y.value, rest) ==> rest != [];
        } else {
          assert !y.value.Obj? ==> Apply(y.value, z.GetOr(Null)) == y.value;
          assert x.Some? && !x.value.Obj? && Get(x.value, rest).Some? ==> rest == [];
          assert x.Some? && x.value.Obj? ==> !Untouched(x.value, y.value, rest);
          assert Get(r, path) == Get(Apply(y.value, z.GetOr(Null)), rest);
          if Unmentioned(y.value, rest) {
            ApplyKeepsUnmentioned(y.value, z.GetOr(Null), rest);
          }
          if Get(y.value, rest).Some? && !Get(y.value, rest).value.Obj? && !Get(y.value, rest).value.Null? {
            ApplyInstallsLeaf(y.value, z.GetOr(Null), rest);
          }
        }
      } else if x != y {
        assert y.Some? && x.Some? && x.value.Obj? ==> !Untouched(x.value, y.value, rest);
      } else {
        assert Member(r, k) == z;
      }
    }
  }
}
