/** Signed documents (documents.rs): canonical bytes as a whole, and folding a signature in. */
module Documents {
  import opened Types
  import opened Buffers
  import opened Canonical
  import opened CanonicalForm

  // ---- The writer as the operator runs it ------------------------------------------

  method WriteJsonString(text: Bytes, out: Buffer)
    modifies out
    ensures out.bytes == old(out.bytes) + Quoted(text)
  {
    out.Push(QUOTE);
    ghost var goal := out.bytes + EscapedAll(text);
    var i := 0;
    assert text[0..] == text;
    while i < |text|
      invariant 0 <= i <= |text|
      invariant out.bytes + EscapedAll(text[i..]) == goal
    {
      EscapeStep(out.bytes, text, i);
      out.Extend(Escaped(text[i]));
      i := i + 1;
    }
    assert out.bytes == goal;
    out.Push(QUOTE);
  }

  lemma EscapeStep(lead: Bytes, text: Bytes, i: nat)
    requires i < |text|
    ensures lead + EscapedAll(text[i..]) == lead + Escaped(text[i]) + EscapedAll(text[i + 1..])
  {
    assert text[i..][1..] == text[i + 1..];
  }

  /** Refuses exactly the values with a float in them. */
  method WriteCanonical(v: Value, out: Buffer) returns (ok: bool)
    modifies out
    ensures ok <==> Whole(v)
    ensures ok ==> out.bytes == old(out.bytes) + CanonicalOf(v)
    decreases v, 2
  {
    ok := true;
    match v
    case Object(fields) =>
      ok := WriteObject(v, out);
    case Array(items) =>
      ok := WriteArray(v, out);
    case Text(text) =>
      WriteJsonString(text, out);
    case Integer(n) =>
      out.Extend(Number(n));
    case Float(_) =>
      ok := false;
    case Bool(flag) =>
      out.Extend(if flag then TRUE else FALSE);
    case Null =>
      out.Extend(NULL);
  }

  ghost function FieldText(field: Field): Bytes
    requires Whole(field.value)
  {
    Quoted(field.key) + ([COLON] + CanonicalOf(field.value))
  }

  ghost function FieldTexts(fields: seq<Field>): (parts: seq<Bytes>)
    requires Whole(Object(fields))
    ensures |parts| == |fields|
  {
    seq(|fields|, i requires 0 <= i < |fields| => FieldText(fields[i]))
  }

  ghost function ItemTexts(items: seq<Value>): (parts: seq<Bytes>)
    requires Whole(Array(items))
    ensures |parts| == |items|
  {
    seq(|items|, i requires 0 <= i < |items| => CanonicalOf(items[i]))
  }

  lemma ArrayText(items: seq<Value>)
    requires Whole(Array(items))
    ensures CanonicalOf(Array(items)) == [OPEN_LIST] + (Listed(ItemTexts(items), 0) + [CLOSE_LIST])
  {
    NormalKeepsWhole(Array(items));
    assert ItemParts(Normal(Array(items)).items) == ItemTexts(items);
  }

  lemma ObjectText(fields: seq<Field>)
    requires Whole(Object(fields))
    ensures Whole(Object(Sort(fields)))
    ensures CanonicalOf(Object(fields)) == [OPEN_OBJECT] + (Listed(FieldTexts(Sort(fields)), 0) + [CLOSE_OBJECT])
  {
    NormalKeepsWhole(Object(fields));
    SortKeepsWhole(fields);
    assert FieldParts(Normal(Object(fields)).fields) == FieldTexts(Sort(fields));
  }

  lemma ListStep(lead: Bytes, parts: seq<Bytes>, index: nat)
    requires index < |parts|
    ensures lead + Listed(parts, index) ==
            (if index > 0 then lead + [COMMA] else lead) + parts[index] + Listed(parts, index + 1)
  {
  }

  lemma Bracketed(start: Bytes, open: Byte, inside: Bytes, close: Byte)
    ensures start + [open] + inside + [close] == start + ([open] + (inside + [close]))
  {
  }

  lemma WholeByMember(fields: seq<Field>)
    ensures Whole(Object(fields)) <==> forall f :: f in fields ==> Whole(f.value)
  {
    if forall f :: f in fields ==> Whole(f.value) {
      assert forall i :: 0 <= i < |fields| ==> fields[i] in fields;
    }
  }

  lemma SortKeepsWhole(fields: seq<Field>)
    ensures Whole(Object(Sort(fields))) <==> Whole(Object(fields))
  {
    WholeByMember(fields);
    WholeByMember(Sort(fields));
  }

  method WriteArray(v: Value, out: Buffer) returns (ok: bool)
    requires v.Array?
    modifies out
    ensures ok <==> Whole(v)
    ensures ok ==> out.bytes == old(out.bytes) + CanonicalOf(v)
    decreases v, 0
  {
    ghost var parts: seq<Bytes> := if Whole(v) then ItemTexts(v.items) else [];
    ghost var start := out.bytes;
    out.Push(OPEN_LIST);
    ghost var goal := out.bytes + Listed(parts, 0);
    for index := 0 to |v.items|
      invariant forall k :: 0 <= k < index ==> Whole(v.items[k])
      invariant Whole(v) ==> out.bytes + Listed(parts, index) == goal
    {
      if Whole(v) {
        ListStep(out.bytes, parts, index);
      }
      if index > 0 {
        out.Push(COMMA);
      }
      ok := WriteCanonical(v.items[index], out);
      if !ok {
        return false;
      }
    }
    out.Push(CLOSE_LIST);
    ArrayText(v.items);
    Bracketed(start, OPEN_LIST, Listed(parts, 0), CLOSE_LIST);
    ok := true;
  }

  method WriteObject(v: Value, out: Buffer) returns (ok: bool)
    requires v.Object?
    modifies out
    ensures ok <==> Whole(v)
    ensures ok ==> out.bytes == old(out.bytes) + CanonicalOf(v)
    decreases v, 1
  {
    var sorted := Sort(v.fields);
    SortKeepsWhole(v.fields);
    ghost var start := out.bytes;
    out.Push(OPEN_OBJECT);
    ok := WriteFields(v, sorted, out);
    if ok {
      out.Push(CLOSE_OBJECT);
      ObjectText(v.fields);
      Bracketed(start, OPEN_OBJECT, Listed(FieldTexts(sorted), 0), CLOSE_OBJECT);
    }
  }

  method WriteFields(v: Value, sorted: seq<Field>, out: Buffer) returns (ok: bool)
    requires v.Object? && forall f :: f in sorted ==> f in v.fields
    modifies out
    ensures ok <==> Whole(Object(sorted))
    ensures ok ==> out.bytes == old(out.bytes) + Listed(FieldTexts(sorted), 0)
    decreases v, 0
  {
    ghost var parts: seq<Bytes> := if Whole(Object(sorted)) then FieldTexts(sorted) else [];
    ghost var goal := out.bytes + Listed(parts, 0);
    for index := 0 to |sorted|
      invariant forall k :: 0 <= k < index ==> Whole(sorted[k].value)
      invariant Whole(Object(sorted)) ==> out.bytes + Listed(parts, index) == goal
    {
      if Whole(Object(sorted)) {
        ListStep(out.bytes, parts, index);
      }
      if index > 0 {
        out.Push(COMMA);
      }
      assert sorted[index] in sorted;
      ok := WriteField(sorted[index], out);
      if !ok {
        return false;
      }
    }
    ok := true;
  }

  method WriteField(field: Field, out: Buffer) returns (ok: bool)
    modifies out
    ensures ok <==> Whole(field.value)
    ensures ok ==> out.bytes == old(out.bytes) + FieldText(field)
    decreases field, 2
  {
    WriteJsonString(field.key, out);
    out.Push(COLON);
    ok := WriteCanonical(field.value, out);
  }

  // ---- Signing ------------------------------------------------------------------------

  const SIGNATURE: Bytes := [115, 105, 103, 110, 97, 116, 117, 114, 101]
  const TERMS_ID: Bytes := [116, 101, 114, 109, 115, 73, 100]

  lemma NamesAsText()
    ensures SIGNATURE == AsBytes("signature") && TERMS_ID == AsBytes("termsId")
  {
  }

  function Without(fields: seq<Field>, names: set<Bytes>): (r: seq<Field>)
    ensures forall f :: f in r <==> f in fields && f.key !in names
  {
    if fields == [] then []
    else
      assert fields == [fields[0]] + fields[1..];
      var rest := Without(fields[1..], names);
      if fields[0].key in names then rest else [fields[0]] + rest
  }

  function Omit(v: Value, names: set<Bytes>): Value {
    if v.Object? then Object(Without(v.fields, names)) else v
  }

  /** Replaces the field of that key, or adds one. */
  function Put(fields: seq<Field>, key: Bytes, value: Value): (r: seq<Field>)
    ensures Field(key, value) in r
    ensures forall f: Field :: f.key != key ==> (f in r <==> f in fields)
  {
    if fields == [] then [Field(key, value)]
    else
      assert fields == [fields[0]] + fields[1..];
      if fields[0].key == key then [Field(key, value)] + fields[1..]
      else [fields[0]] + Put(fields[1..], key, value)
  }

  method CanonicalBytes(v: Value, names: seq<Bytes>) returns (r: Option<Bytes>)
    ensures var kept := Omit(v, set name | name in names);
            if Whole(kept) then r == Some(CanonicalOf(kept)) else r == None
  {
    var left := v;
    if v.Object? {
      var fields := v.fields;
      ghost var gone: set<Bytes> := {};
      WithoutNone(v.fields);
      for i := 0 to |names|
        invariant gone == set name | name in names[..i]
        invariant fields == Without(v.fields, gone)
      {
        WithoutTwice(v.fields, gone, {names[i]});
        fields := Without(fields, {names[i]});
        gone := gone + {names[i]};
      }
      assert names[..|names|] == names;
      left := Object(fields);
    }
    var out := new Buffer();
    var ok := WriteCanonical(left, out);
    if !ok {
      return None;
    }
    assert [] + CanonicalOf(left) == CanonicalOf(left);
    return Some(out.bytes);
  }

  lemma {:induction false} WithoutNone(fields: seq<Field>)
    ensures Without(fields, {}) == fields
  {
    if fields != [] {
      WithoutNone(fields[1..]);
    }
  }

  lemma {:induction false} WithoutTwice(fields: seq<Field>, a: set<Bytes>, b: set<Bytes>)
    ensures Without(Without(fields, a), b) == Without(fields, a + b)
  {
    if fields != [] {
      WithoutTwice(fields[1..], a, b);
      var rest := Without(fields[1..], a);
      assert ([fields[0]] + rest)[1..] == rest;
    }
  }

  /** `sign`: the signature, and for terms the digest that names them, go back into the
      document they were computed over. None when the document has no canonical form. */
  ghost function Sign(v: Value, names: set<Bytes>, signature: Bytes -> Bytes, digest: Bytes -> Bytes): Option<Value> {
    if !Whole(Omit(v, names)) then None
    else if !v.Object? then Some(v)
    else
      var bytes := CanonicalOf(Omit(v, names));
      var named := if TERMS_ID in names then Put(v.fields, TERMS_ID, Text(digest(bytes))) else v.fields;
      Some(Object(Put(named, SIGNATURE, Text(signature(bytes)))))
  }

  method SignDocument(v: Value, names: seq<Bytes>, signature: Bytes -> Bytes, digest: Bytes -> Bytes)
    returns (r: Option<Value>)
    ensures r == Sign(v, (set name | name in names), signature, digest)
  {
    var bytes := CanonicalBytes(v, names);
    if bytes.None? {
      return None;
    }
    if !v.Object? {
      return Some(v);
    }
    var document := v.fields;
    if TERMS_ID in names {
      document := Put(document, TERMS_ID, Text(digest(bytes.value)));
    }
    document := Put(document, SIGNATURE, Text(signature(bytes.value)));
    return Some(Object(document));
  }

  lemma {:induction false} PutIsOmitted(fields: seq<Field>, key: Bytes, value: Value, names: set<Bytes>)
    requires key in names
    ensures Without(Put(fields, key, value), names) == Without(fields, names)
  {
    if fields == [] {
      assert [Field(key, value)][1..] == [];
    } else if fields[0].key == key {
      assert ([Field(key, value)] + fields[1..])[1..] == fields[1..];
    } else {
      PutIsOmitted(fields[1..], key, value, names);
      var rest := Put(fields[1..], key, value);
      assert ([fields[0]] + rest)[1..] == rest;
    }
  }

  lemma SameOmitted(a: Value, b: Value, names: set<Bytes>)
    requires Same(a, b)
    ensures Same(Omit(a, names), Omit(b, names))
  {
    if a.Object? && b.Object? {
      var kept := Omit(a, names);
      forall f | f in kept.fields ensures HasPartner(f, Without(b.fields, names)) {
        assert HasPartner(f, b.fields);
        var g :| g in b.fields && SameField(f, g);
        assert g in Without(b.fields, names);
      }
      forall g | g in Without(b.fields, names) ensures IsPartner(kept, g) {
        assert IsPartner(a, g);
        var f :| f in a.fields && SameField(f, g);
        assert f in kept.fields;
      }
    }
  }

  /** Whoever reads a signed document back, whatever order its keys come in, drops the
      named fields and writes the rest canonically, gets the bytes that were signed; and
      the terms id in it is the digest of those same bytes. */
  lemma SignedDocumentVerifies(v: Value, names: set<Bytes>, signature: Bytes -> Bytes, digest: Bytes -> Bytes,
                               read: Value)
    requires v.Object? && WellFormed(v) && WellFormed(read) && SIGNATURE in names
    requires Sign(v, names, signature, digest).Some? && Same(Sign(v, names, signature, digest).value, read)
    ensures var bytes := CanonicalOf(Omit(v, names));
            && Whole(Omit(read, names)) && CanonicalOf(Omit(read, names)) == bytes
            && Field(SIGNATURE, Text(signature(bytes))) in read.fields
            && (TERMS_ID in names ==> Field(TERMS_ID, Text(digest(bytes))) in read.fields)
  {
    var bytes := CanonicalOf(Omit(v, names));
    var signed := Sign(v, names, signature, digest).value;
    var named := if TERMS_ID in names then Put(v.fields, TERMS_ID, Text(digest(bytes))) else v.fields;
    if TERMS_ID in names {
      PutIsOmitted(v.fields, TERMS_ID, Text(digest(bytes)), names);
    }
    PutIsOmitted(named, SIGNATURE, Text(signature(bytes)), names);
    assert Omit(signed, names) == Omit(v, names);
    SameOmitted(signed, read, names);
    OmitKeepsWellFormed(v, names);
    OmitKeepsWellFormed(read, names);
    SameCanonically(Omit(v, names), Omit(read, names));
    SameTextField(signed, read, Field(SIGNATURE, Text(signature(bytes))));
    if TERMS_ID in names {
      assert TERMS_ID != SIGNATURE;
      SameTextField(signed, read, Field(TERMS_ID, Text(digest(bytes))));
    }
  }

  lemma SameTextField(a: Value, b: Value, field: Field)
    requires a.Object? && b.Object? && Same(a, b) && field in a.fields && field.value.Text?
    ensures field in b.fields
  {
    assert HasPartner(field, b.fields);
    var g :| g in b.fields && SameField(field, g);
    assert Same(field.value, g.value) && g.value == field.value;
    assert g == Field(field.key, field.value) == field;
  }

  lemma OmitKeepsWellFormed(v: Value, names: set<Bytes>)
    requires WellFormed(v)
    ensures WellFormed(Omit(v, names))
  {
    if v.Object? {
      var kept := Without(v.fields, names);
      WithoutKeepsDistinct(v.fields, names);
      assert forall i :: 0 <= i < |kept| ==> kept[i] in kept && kept[i] in v.fields;
    }
  }

  lemma {:induction false} WithoutKeepsDistinct(fields: seq<Field>, names: set<Bytes>)
    requires DistinctKeys(fields)
    ensures DistinctKeys(Without(fields, names))
  {
    if fields != [] {
      WithoutKeepsDistinct(fields[1..], names);
      var rest := Without(fields[1..], names);
      forall i | 0 <= i < |rest| ensures rest[i].key != fields[0].key {
        assert rest[i] in rest && rest[i] in fields[1..];
      }
    }
  }
}
