/** What canonical bytes decide: equal exactly for the same JSON value. */
module CanonicalForm {
  import opened Types
  import opened Canonical

  /** The same JSON value: key order aside, equal at every level. */
  ghost predicate Same(a: Value, b: Value)
    decreases a, 2
  {
    match (a, b)
    case (Array(xs), Array(ys)) => |xs| == |ys| && forall i :: 0 <= i < |xs| ==> Same(xs[i], ys[i])
    case (Object(fs), Object(gs)) =>
      (forall f :: f in fs ==> HasPartner(f, gs)) && (forall g :: g in gs ==> IsPartner(a, g))
    case _ => a == b
  }

  ghost predicate SameField(f: Field, g: Field)
    decreases f, 0
  {
    f.key == g.key && Same(f.value, g.value)
  }

  ghost predicate HasPartner(f: Field, gs: seq<Field>)
    decreases f, 1
  {
    exists g :: g in gs && SameField(f, g)
  }

  ghost predicate IsPartner(a: Value, g: Field)
    requires a.Object?
    decreases a, 1
  {
    exists f :: f in a.fields && SameField(f, g)
  }

  /** A field of a normalised object. */
  ghost function NormalField(f: Field): Field { Field(f.key, Normal(f.value)) }

  ghost function NormalFields(fields: seq<Field>): (r: seq<Field>)
    ensures |r| == |fields|
    ensures forall i :: 0 <= i < |r| ==> r[i] == NormalField(Sort(fields)[i])
  {
    Normal(Object(fields)).fields
  }

  lemma NormalFieldsMembers(fields: seq<Field>)
    ensures forall f :: f in fields ==> NormalField(f) in NormalFields(fields)
    ensures forall g :: g in NormalFields(fields) ==> exists f :: f in fields && g == NormalField(f)
  {
    var sorted, r := Sort(fields), NormalFields(fields);
    forall f | f in fields ensures NormalField(f) in r {
      assert f in sorted;
      var i :| 0 <= i < |sorted| && sorted[i] == f;
      assert r[i] == NormalField(f);
    }
    forall g | g in r ensures exists f :: f in fields && g == NormalField(f) {
      var i :| 0 <= i < |r| && r[i] == g;
      assert sorted[i] in sorted && sorted[i] in fields;
    }
  }

  lemma EmptyOrMember(b: seq<Field>)
    ensures b == [] || b[0] in b
  {
    if b != [] {
      assert b[0] in b;
    }
  }

  /** There is one way to put a set of fields in key order. */
  lemma {:induction false} SortedIsUnique(a: seq<Field>, b: seq<Field>)
    requires Sorted(a) && Sorted(b) && forall f :: f in a <==> f in b
    ensures a == b
  {
    if a == [] {
      EmptyOrMember(b);
    } else {
      assert a[0] in b;
      SameHead(a, b);
      TailsAgree(a, b);
      TailsAgree(b, a);
      SortedIsUnique(a[1..], b[1..]);
    }
  }

  lemma SameHead(a: seq<Field>, b: seq<Field>)
    requires Sorted(a) && Sorted(b) && a != [] && b != [] && a[0] in b && b[0] in a
    ensures a[0] == b[0]
  {
    var j :| 0 <= j < |b| && b[j] == a[0];
    var i :| 0 <= i < |a| && a[i] == b[0];
    LessIsTotal(a[0].key, b[0].key);
    LessIsTotal(b[0].key, a[0].key);
  }

  lemma TailsAgree(a: seq<Field>, b: seq<Field>)
    requires Sorted(a) && a != [] && b != [] && a[0] == b[0] && forall f :: f in a ==> f in b
    ensures forall f :: f in a[1..] ==> f in b[1..]
  {
    forall f | f in a[1..] ensures f in b[1..] {
      var i :| 0 <= i < |a| - 1 && a[1..][i] == f;
      assert a[i + 1] == f && f in a;
      LessIsTotal(a[0].key, f.key);
      assert b == [b[0]] + b[1..];
    }
  }

  lemma {:induction false} SameIsNormal(a: Value, b: Value)
    requires WellFormed(a) && WellFormed(b)
    ensures Same(a, b) <==> Normal(a) == Normal(b)
    decreases a
  {
    match (a, b)
    case (Array(xs), Array(ys)) =>
      assert forall i :: 0 <= i < |xs| ==> Normal(a).items[i] == Normal(xs[i]);
      assert forall i :: 0 <= i < |ys| ==> Normal(b).items[i] == Normal(ys[i]);
      if |xs| == |ys| {
        forall i | 0 <= i < |xs| ensures Same(xs[i], ys[i]) <==> Normal(xs[i]) == Normal(ys[i]) {
          SameIsNormal(xs[i], ys[i]);
        }
        assert Same(a, b) ==> Normal(a).items == Normal(b).items;
      } else {
        assert |Normal(a).items| != |Normal(b).items|;
      }
    case (Object(fs), Object(gs)) =>
      forall f, g | f in fs && g in gs ensures SameField(f, g) <==> NormalField(f) == NormalField(g) {
        SameIsNormal(f.value, g.value);
      }
      if Same(a, b) {
        SameMeansNormal(a, b);
      }
      if Normal(a) == Normal(b) {
        NormalMeansSame(a, b);
      }
    case _ =>
  }

  /** The two notions agree on the fields of two objects. */
  ghost predicate AgreeBelow(fs: seq<Field>, gs: seq<Field>) {
    forall f, g :: f in fs && g in gs ==> (SameField(f, g) <==> NormalField(f) == NormalField(g))
  }

  lemma SameMeansNormal(a: Value, b: Value)
    requires a.Object? && b.Object? && DistinctKeys(a.fields) && DistinctKeys(b.fields)
    requires AgreeBelow(a.fields, b.fields) && Same(a, b)
    ensures Normal(a) == Normal(b)
  {
    var n, m := NormalFields(a.fields), NormalFields(b.fields);
    NormalFieldsMembers(a.fields);
    NormalFieldsMembers(b.fields);
    SortSorts(a.fields);
    SortSorts(b.fields);
    forall x | x in n ensures x in m {
      var f :| f in a.fields && x == NormalField(f);
      assert HasPartner(f, b.fields);
      var g :| g in b.fields && SameField(f, g);
    }
    forall y | y in m ensures y in n {
      var g :| g in b.fields && y == NormalField(g);
      assert IsPartner(a, g);
      var f :| f in a.fields && SameField(f, g);
    }
    SortedIsUnique(n, m);
  }

  lemma NormalMeansSame(a: Value, b: Value)
    requires a.Object? && b.Object? && AgreeBelow(a.fields, b.fields) && Normal(a) == Normal(b)
    ensures Same(a, b)
  {
    assert NormalFields(a.fields) == NormalFields(b.fields);
    forall f | f in a.fields ensures HasPartner(f, b.fields) {
      var g := Counterpart(f, a.fields, b.fields);
      assert SameField(f, g);
    }
    forall g | g in b.fields ensures IsPartner(a, g) {
      var f := Counterpart(g, b.fields, a.fields);
      assert SameField(f, g);
    }
  }

  lemma Counterpart(f: Field, fs: seq<Field>, gs: seq<Field>) returns (g: Field)
    requires f in fs && NormalFields(fs) == NormalFields(gs)
    ensures g in gs && NormalField(g) == NormalField(f)
  {
    NormalFieldsMembers(fs);
    NormalFieldsMembers(gs);
    assert NormalField(f) in NormalFields(gs);
    g :| g in gs && NormalField(f) == NormalField(g);
  }

  /** A reader gets the value back from its canonical bytes, with every object's keys in
      byte order and nothing left over. */
  lemma CanonicalReadsBack(v: Value)
    requires Whole(v)
    ensures ReadValue(CanonicalOf(v)) == Some((Normal(v), []))
  {
    NormalKeepsWhole(v);
    ReadsBack(Normal(v), []);
    assert CanonicalOf(v) + [] == CanonicalOf(v);
  }

  /** Two values have the same canonical bytes exactly when they are the same JSON value:
      insertion order never shows, and nothing else is lost. */
  lemma SameCanonically(a: Value, b: Value)
    requires WellFormed(a) && WellFormed(b) && Whole(a)
    ensures Same(a, b) <==> Whole(b) && CanonicalOf(b) == CanonicalOf(a)
  {
    SameIsNormal(a, b);
    NormalKeepsWhole(a);
    NormalKeepsWhole(b);
    if Whole(b) {
      CanonicalReadsBack(a);
      CanonicalReadsBack(b);
    }
  }
}
