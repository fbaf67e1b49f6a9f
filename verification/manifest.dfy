// The canonical JSON of a whole-document index manifest, byte by byte, and the manifest ID
// derived from it. A parser shows that the bytes determine every field.
module Manifest {
  import opened Basics
  import opened Bytes

  datatype Doc = Doc(
    docKey: Text, structureRef: Text, denseRef: Text, sparseRef: Text, multiRef: Text, multiTokens: int,
    encoderId: Text,
    sourceChars: int, budgetBytes: int)

  datatype IndexManifest = IndexManifest(manifestId: Text, moduleId: Text, releaseId: Text, docs: seq<Doc>)

  const MAX_MULTI_TOKENS := 2048

  const QUOTE: Byte := 34
  const COMMA: Byte := 44
  const MINUS: Byte := 45
  const COLON: Byte := 58
  const OPEN_BRACKET: Byte := 91
  const BACKSLASH: Byte := 92
  const CLOSE_BRACKET: Byte := 93
  const OPEN_BRACE: Byte := 123
  const CLOSE_BRACE: Byte := 125

  // ASCII characters as bytes.
  function Ascii(s: string): Text {
    seq(|s|, i requires 0 <= i < |s| => if s[i] < 128 as char then s[i] as int else 63)
  }

  // ---------- strings ----------

  // Section 7 of RFC 8259: quote, backslash and control characters are escaped.
  function Escape(c: Byte): Text {
    if c == QUOTE then [BACKSLASH, QUOTE]
    else if c == BACKSLASH then [BACKSLASH, BACKSLASH]
    else if c == 8 then [BACKSLASH, 98]
    else if c == 12 then [BACKSLASH, 102]
    else if c == 10 then [BACKSLASH, 110]
    else if c == 13 then [BACKSLASH, 114]
    else if c == 9 then [BACKSLASH, 116]
    else if c < 32 then [BACKSLASH, 117, 48, 48, HexDigit(c / 16), HexDigit(c % 16)]
    else [c]
  }

  function Escaped(s: Text): Text {
    if s == [] then [] else Escape(s[0]) + Escaped(s[1..])
  }

  function StringBytes(s: Text): Text {
    [QUOTE] + (Escaped(s) + [QUOTE])
  }

  // ---------- numbers ----------

  function Digits(n: nat): Text {
    if n < 10 then [48 + n] else Digits(n / 10) + [48 + n % 10]
  }

  function Decimal(n: int): Text {
    if n < 0 then [MINUS] + Digits(-n) else Digits(n)
  }

  // ---------- objects ----------

  datatype Value = Str(text: Text) | Num(number: int)

  datatype Field = Field(key: Text, value: Value)

  function KeyBytes(key: Text): Text {
    [QUOTE] + key + [QUOTE, COLON]
  }

  function ValueBytes(v: Value): Text {
    match v
    case Str(s) => StringBytes(s)
    case Num(n) => Decimal(n)
  }

  function FieldBytes(f: Field): Text {
    KeyBytes(f.key) + ValueBytes(f.value)
  }

  function Flat(items: seq<Text>): Text {
    if items == [] then [] else items[0] + Flat(items[1..])
  }

  function Piece(lead: Byte, f: Field): Text {
    [lead] + FieldBytes(f)
  }

  // Every member behind its separator.
  function Pieces(lead: Byte, fields: seq<Field>): seq<Text> {
    seq(|fields|, i requires 0 <= i < |fields| => Piece(if i == 0 then lead else COMMA, fields[i]))
  }

  function Members(lead: Byte, fields: seq<Field>): Text {
    Flat(Pieces(lead, fields))
  }

  lemma {:induction false} MembersUnfold(lead: Byte, fields: seq<Field>)
    requires fields != []
    ensures Members(lead, fields) == Piece(lead, fields[0]) + Members(COMMA, fields[1..])
  {
    hide Piece;
    assert Pieces(lead, fields)[1..] == Pieces(COMMA, fields[1..]);
  }

  // The member names of the format. What is proved holds for any names.
  datatype Keys = Keys(
    moduleId: Text, releaseId: Text, docs: Text, docKey: Text, structureRef: Text, denseRef: Text, sparseRef: Text,
    multiRef: Text,
    multiTokens: Text, encoderId: Text, sourceChars: Text, budgetBytes: Text)

  const KEYS := Keys(
    Ascii("module_id"), Ascii("release_id"), Ascii("docs"), Ascii("doc_key"), Ascii("structure_ref"),
    Ascii("dense_ref"),
    Ascii("sparse_ref"), Ascii("multi_ref"), Ascii("multi_tokens"), Ascii("encoder_id"), Ascii("source_chars"),
    Ascii("budget_bytes"))

  function FieldsOf(k: Keys, d: Doc): seq<Field> {
    [Field(k.docKey, Str(d.docKey)), Field(k.structureRef, Str(d.structureRef)), Field(k.denseRef, Str(d.denseRef)),
     Field(k.sparseRef, Str(d.sparseRef)), Field(k.multiRef, Str(d.multiRef)), Field(k.multiTokens, Num(d.multiTokens)),
     Field(k.encoderId, Str(d.encoderId)), Field(k.sourceChars, Num(d.sourceChars)),
     Field(k.budgetBytes, Num(d.budgetBytes))]
  }

  function DocBytes(k: Keys, d: Doc): Text {
    Members(OPEN_BRACE, FieldsOf(k, d)) + [CLOSE_BRACE]
  }

  // The documents, with `lead` in front of the first one.
  function DocPieces(k: Keys, lead: Text, docs: seq<Doc>): seq<Text> {
    seq(|docs|, i requires 0 <= i < |docs| => (if i == 0 then lead else [COMMA]) + DocBytes(k, docs[i]))
  }

  function DocsBytes(k: Keys, lead: Text, docs: seq<Doc>): Text {
    Flat(DocPieces(k, lead, docs))
  }

  lemma {:induction false} DocsUnfold(k: Keys, lead: Text, docs: seq<Doc>)
    requires docs != []
    ensures DocsBytes(k, lead, docs) == (lead + DocBytes(k, docs[0])) + DocsBytes(k, [COMMA], docs[1..])
  {
    assert DocPieces(k, lead, docs)[1..] == DocPieces(k, [COMMA], docs[1..]);
  }

  function HeadFields(k: Keys, m: IndexManifest): seq<Field> {
    [Field(k.moduleId, Str(m.moduleId)), Field(k.releaseId, Str(m.releaseId))]
  }

  function DocsKey(k: Keys): Text {
    [COMMA] + KeyBytes(k.docs) + [OPEN_BRACKET]
  }

  function Canonical(k: Keys, m: IndexManifest): Text {
    Members(OPEN_BRACE, HeadFields(k, m)) + (DocsKey(k) + (DocsBytes(k, [], m.docs) + [CLOSE_BRACKET, CLOSE_BRACE]))
  }

  // ---------- the printer ----------

  method AppendString(b: Text, s: Text) returns (r: Text)
    ensures r == b + StringBytes(s)
  {
    r := b + [QUOTE];
    NothingAround(r);
    for i := 0 to |s|
      invariant r == b + [QUOTE] + Escaped(s[..i])
    {
      EscapedOneMore(s, i);
      Associates(b + [QUOTE], Escaped(s[..i]), Escape(s[i]));
      r := r + Escape(s[i]);
    }
    assert s[..|s|] == s;
    Regroup(b, [QUOTE], Escaped(s), [QUOTE]);
    r := r + [QUOTE];
  }

  lemma {:induction false} EscapedAppend(a: Text, b: Text)
    ensures Escaped(a + b) == Escaped(a) + Escaped(b)
  {
    if a == [] {
      assert a + b == b;
    } else {
      assert (a + b)[1..] == a[1..] + b;
      EscapedAppend(a[1..], b);
    }
  }

  lemma {:induction false} EscapedOneMore(s: Text, i: nat)
    requires i < |s|
    ensures Escaped(s[..i + 1]) == Escaped(s[..i]) + Escape(s[i])
  {
    assert s[..i + 1] == s[..i] + [s[i]];
    EscapedAppend(s[..i], [s[i]]);
    assert Escaped([s[i]]) == Escape(s[i]);
  }

  // The text once the first n items are behind `front`.
  ghost function Written(front: Text, items: seq<Text>, n: nat): Text
    requires n <= |items|
  {
    if n == 0 then front else Written(front, items, n - 1) + items[n - 1]
  }

  lemma {:induction false} WrittenFrom(front: Text, items: seq<Text>, n: nat)
    requires 1 <= n <= |items|
    ensures Written(front, items, n) == Written(front + items[0], items[1..], n - 1)
  {
    if n > 1 {
      WrittenFrom(front, items, n - 1);
    }
  }

  // All items, written one by one.
  lemma {:induction false} WrittenAll(front: Text, items: seq<Text>)
    ensures Written(front, items, |items|) == front + Flat(items)
    decreases |items|
  {
    if items == [] {
      NothingAround(front);
    } else {
      var first, rest := items[0], items[1..];
      WrittenFrom(front, items, |items|);
      WrittenAll(front + first, rest);
      Associates(front, first, Flat(rest));
      assert Flat(items) == first + Flat(rest);
    }
  }

  lemma {:induction false} Regroup(a: Text, b: Text, c: Text, d: Text)
    ensures a + b + c + d == a + (b + (c + d))
  {
  }

  method AppendValue(b: Text, v: Value) returns (r: Text)
    ensures r == b + ValueBytes(v)
  {
    match v {
      case Str(s) => r := AppendString(b, s);
      case Num(n) => r := b + Decimal(n);
    }
  }

  // The next member of an object behind those done.
  method AppendField(b: Text, key: Text, v: Value, ghost lead: Byte, ghost front: Text, ghost items: seq<Text>,
          ghost n: nat)
    returns (r: Text)
    requires n < |items| && items[n] == Piece(lead, Field(key, v))
    requires b == Written(front, items, n) + [lead]
    ensures r == Written(front, items, n + 1)
  {
    Regroup(Written(front, items, n), [lead], KeyBytes(key), ValueBytes(v));
    r := AppendValue(b + KeyBytes(key), v);
  }

  // The references of a document.
  method AppendRefs(k: Keys, b: Text, d: Doc) returns (r: Text)
    ensures r == Written(b, Pieces(OPEN_BRACE, FieldsOf(k, d)), 5)
  {
    ghost var ps := Pieces(OPEN_BRACE, FieldsOf(k, d));
    r := AppendField(b + [OPEN_BRACE], k.docKey, Str(d.docKey), OPEN_BRACE, b, ps, 0);
    r := AppendField(r + [COMMA], k.structureRef, Str(d.structureRef), COMMA, b, ps, 1);
    r := AppendField(r + [COMMA], k.denseRef, Str(d.denseRef), COMMA, b, ps, 2);
    r := AppendField(r + [COMMA], k.sparseRef, Str(d.sparseRef), COMMA, b, ps, 3);
    r := AppendField(r + [COMMA], k.multiRef, Str(d.multiRef), COMMA, b, ps, 4);
  }

  method AppendDoc(k: Keys, b: Text, d: Doc) returns (r: Text)
    ensures r == b + DocBytes(k, d)
  {
    ghost var ps := Pieces(OPEN_BRACE, FieldsOf(k, d));
    r := AppendRefs(k, b, d);
    r := AppendField(r + [COMMA], k.multiTokens, Num(d.multiTokens), COMMA, b, ps, 5);
    r := AppendField(r + [COMMA], k.encoderId, Str(d.encoderId), COMMA, b, ps, 6);
    r := AppendField(r + [COMMA], k.sourceChars, Num(d.sourceChars), COMMA, b, ps, 7);
    r := AppendField(r + [COMMA], k.budgetBytes, Num(d.budgetBytes), COMMA, b, ps, 8);
    WrittenAll(b, ps);
    Associates(b, Flat(ps), [CLOSE_BRACE]);
    r := r + [CLOSE_BRACE];
  }

  method AppendHead(k: Keys, m: IndexManifest) returns (b: Text)
    ensures b == Members(OPEN_BRACE, HeadFields(k, m)) + DocsKey(k)
  {
    ghost var ps := Pieces(OPEN_BRACE, HeadFields(k, m));
    NothingAround([OPEN_BRACE]);
    b := AppendField([OPEN_BRACE], k.moduleId, Str(m.moduleId), OPEN_BRACE, [], ps, 0);
    b := AppendField(b + [COMMA], k.releaseId, Str(m.releaseId), COMMA, [], ps, 1);
    WrittenAll([], ps);
    NothingAround(Flat(ps));
    b := b + DocsKey(k);
  }

  method AppendDocs(k: Keys, head: Text, docs: seq<Doc>) returns (b: Text)
    ensures b == head + DocsBytes(k, [], docs)
  {
    b := head;
    ghost var ps := DocPieces(k, [], docs);
    for i := 0 to |docs|
      invariant b == Written(head, ps, i)
    {
      Associates(Written(head, ps, i), if i == 0 then [] else [COMMA], DocBytes(k, docs[i]));
      if i > 0 {
        b := b + [COMMA];
      } else {
        NothingAround(b);
      }
      b := AppendDoc(k, b, docs[i]);
    }
    WrittenAll(head, ps);
  }

  method CanonicalJSON(k: Keys, m: IndexManifest) returns (b: Text)
    ensures b == Canonical(k, m)
  {
    b := AppendHead(k, m);
    b := AppendDocs(k, b, m.docs);
    Regroup(Members(OPEN_BRACE, HeadFields(k, m)), DocsKey(k), DocsBytes(k, [], m.docs), [CLOSE_BRACKET, CLOSE_BRACE]);
    b := b + [CLOSE_BRACKET, CLOSE_BRACE];
  }

  // ---------- a parser ----------

  datatype Parsed<T> = Fail | Done(value: T, rest: Text)

  function Expect(b: Text, want: Text): Parsed<()> {
    if want <= b then Done((), b[|want|..]) else Fail
  }

  function HexValue(c: Byte): int {
    if 48 <= c <= 57 then c - 48 else if 97 <= c <= 102 then c - 87 else -1
  }

  function Short(c: Byte): int {
    if c == QUOTE then QUOTE else if c == BACKSLASH then BACKSLASH else if c == 98 then 8 else if c == 102 then 12
    else if c == 110 then 10 else if c == 114 then 13 else if c == 116 then 9 else -1
  }

  // One character of a string body, in whichever form it is written.
  function ParseChar(b: Text): (r: Parsed<Byte>)
    ensures r.Done? ==> |r.rest| < |b|
  {
    if b == [] || b[0] == QUOTE || b[0] < 32 then Fail
    else if b[0] != BACKSLASH then Done(b[0], b[1..])
    else if |b| >= 2 && Short(b[1]) >= 0 then Done(Short(b[1]), b[2..])
    else if |b| >= 6 && b[1] == 117 && b[2] == 48 && b[3] == 48 && HexValue(b[4]) >= 0 && HexValue(b[5]) >= 0
    then Done(HexValue(b[4]) * 16 + HexValue(b[5]), b[6..])
    else Fail
  }

  // The body of a string up to its closing quote.
  function ParseBody(b: Text): Parsed<Text>
    decreases |b|
  {
    if b == [] then Fail
    else if b[0] == QUOTE then Done([], b[1..])
    else
      var c := ParseChar(b);
      if c.Fail? then Fail
      else
        var more := ParseBody(c.rest);
        if more.Fail? then Fail else Done([c.value] + more.value, more.rest)
  }

  function ParseString(b: Text): Parsed<Text> {
    if b == [] || b[0] != QUOTE then Fail else ParseBody(b[1..])
  }

  predicate IsDigit(b: Text) {
    b != [] && 48 <= b[0] <= 57
  }

  function ParseDigits(n: nat, b: Text): (nat, Text)
    decreases |b|
  {
    if IsDigit(b) then ParseDigits(n * 10 + (b[0] - 48), b[1..]) else (n, b)
  }

  function ParseNumber(b: Text): Parsed<int> {
    if b != [] && b[0] == MINUS then
      var n := ParseDigits(0, b[1..]);
      if !IsDigit(b[1..]) then Fail else Done(0 - n.0, n.1)
    else if !IsDigit(b) then Fail
    else
      var n := ParseDigits(0, b);
      Done(n.0, n.1)
  }

  function ParseValue(b: Text, text: bool): Parsed<Value> {
    if text then
      var s := ParseString(b);
      if s.Fail? then Fail else Done(Str(s.value), s.rest)
    else
      var n := ParseNumber(b);
      if n.Fail? then Fail else Done(Num(n.value), n.rest)
  }

  // The members a schema lists: their keys, and whether they hold text.
  function ParseMembers(b: Text, lead: Byte, schema: seq<(Text, bool)>): Parsed<seq<Value>>
    decreases |schema|
  {
    if schema == [] then Done([], b)
    else
      var key := Expect(b, [lead] + KeyBytes(schema[0].0));
      if key.Fail? then Fail
      else
        var v := ParseValue(key.rest, schema[0].1);
        if v.Fail? then Fail
        else
          var more := ParseMembers(v.rest, COMMA, schema[1..]);
          if more.Fail? then Fail else Done([v.value] + more.value, more.rest)
  }

  function SchemaOf(fields: seq<Field>): seq<(Text, bool)> {
    seq(|fields|, i requires 0 <= i < |fields| => (fields[i].key, fields[i].value.Str?))
  }

  function ValuesOf(fields: seq<Field>): seq<Value> {
    seq(|fields|, i requires 0 <= i < |fields| => fields[i].value)
  }

  const NO_DOC := Doc([], [], [], [], [], 0, [], 0, 0)

  // The keys and kinds of a document's members are the same for every document.
  function DocSchema(k: Keys): seq<(Text, bool)> {
    SchemaOf(FieldsOf(k, NO_DOC))
  }

  predicate DocValues(v: seq<Value>) {
    |v| == 9 && v[0].Str? && v[1].Str? && v[2].Str? && v[3].Str? && v[4].Str? && v[5].Num? && v[6].Str? && v[7].Num?
    && v[8].Num?
  }

  function DocFrom(v: seq<Value>): Doc
    requires DocValues(v)
  {
    Doc(v[0].text, v[1].text, v[2].text, v[3].text, v[4].text, v[5].number, v[6].text, v[7].number, v[8].number)
  }

  function ParseDoc(k: Keys, b: Text): Parsed<Doc> {
    var v := ParseMembers(b, OPEN_BRACE, DocSchema(k));
    if v.Fail? || !DocValues(v.value) then Fail
    else
      var end := Expect(v.rest, [CLOSE_BRACE]);
      if end.Fail? then Fail else Done(DocFrom(v.value), end.rest)
  }

  // Documents up to the closing bracket.
  function ParseDocs(k: Keys, b: Text, lead: Text): Parsed<seq<Doc>>
    decreases |b|
  {
    var end := Expect(b, [CLOSE_BRACKET]);
    if end.Done? then Done([], end.rest)
    else
      var start := Expect(b, lead);
      if start.Fail? then Fail
      else
        var d := ParseDoc(k, start.rest);
        if d.Fail? || |d.rest| >= |b| then Fail
        else
          var more := ParseDocs(k, d.rest, [COMMA]);
          if more.Fail? then Fail else Done([d.value] + more.value, more.rest)
  }

  function ParseHead(k: Keys, b: Text): Parsed<(Text, Text)> {
    var head := ParseMembers(b, OPEN_BRACE, [(k.moduleId, true), (k.releaseId, true)]);
    if head.Fail? || |head.value| != 2 || !head.value[0].Str? || !head.value[1].Str? then Fail
    else
      var key := Expect(head.rest, DocsKey(k));
      if key.Fail? then Fail else Done((head.value[0].text, head.value[1].text), key.rest)
  }

  function Parse(k: Keys, b: Text): Parsed<IndexManifest> {
    var head := ParseHead(k, b);
    if head.Fail? then Fail
    else
      var docs := ParseDocs(k, head.rest, []);
      if docs.Fail? then Fail
      else
        var end := Expect(docs.rest, [CLOSE_BRACE]);
        if end.Fail? then Fail else Done(IndexManifest([], head.value.0, head.value.1, docs.value), end.rest)
  }

  // ---------- the parser reads back what the printer wrote ----------

  lemma {:induction false} ExpectReads(want: Text, t: Text)
    ensures Expect(want + t, want) == Done((), t)
  {
  }

  lemma {:induction false} CharReads(c: Byte, t: Text)
    ensures ParseChar(Escape(c) + t) == Done(c, t)
    ensures (Escape(c) + t)[0] != QUOTE
  {
    var e := Escape(c);
    assert (e + t)[|e|..] == t;
    assert forall i :: 0 <= i < |e| ==> (e + t)[i] == e[i];
  }

  // Escaping is undone exactly, whatever follows the string.
  lemma {:induction false} BodyReads(s: Text, t: Text)
    ensures ParseBody(Escaped(s) + ([QUOTE] + t)) == Done(s, t)
  {
    if s == [] {
      assert Escaped(s) + ([QUOTE] + t) == [QUOTE] + t;
    } else {
      var tail := Escaped(s[1..]) + ([QUOTE] + t);
      assert Escaped(s) + ([QUOTE] + t) == Escape(s[0]) + tail;
      CharReads(s[0], tail);
      BodyReads(s[1..], t);
      assert s == [s[0]] + s[1..];
    }
  }

  lemma {:induction false} StringReads(s: Text, t: Text)
    ensures ParseString(StringBytes(s) + t) == Done(s, t)
  {
    assert (StringBytes(s) + t)[1..] == Escaped(s) + ([QUOTE] + t);
    BodyReads(s, t);
  }

  lemma {:induction false} DigitsRead(n: nat, t: Text)
    ensures ParseDigits(0, Digits(n) + t) == ParseDigits(n, t)
    ensures IsDigit(Digits(n) + t)
  {
    if n < 10 {
      assert (Digits(n) + t)[1..] == t;
    } else {
      var last: Text := [48 + n % 10];
      assert Digits(n) + t == Digits(n / 10) + (last + t);
      DigitsRead(n / 10, last + t);
      assert (last + t)[1..] == t;
    }
  }

  lemma {:induction false} NumberReads(n: int, t: Text)
    requires !IsDigit(t)
    ensures ParseNumber(Decimal(n) + t) == Done(n, t)
  {
    if n < 0 {
      assert (Decimal(n) + t)[1..] == Digits(-n) + t;
      DigitsRead(-n, t);
    } else {
      DigitsRead(n, t);
    }
  }

  lemma {:induction false} ValueReads(v: Value, t: Text)
    requires !IsDigit(t)
    ensures ParseValue(ValueBytes(v) + t, v.Str?) == Done(v, t)
  {
    match v
    case Str(s) => StringReads(s, t);
    case Num(n) => NumberReads(n, t);
  }

  lemma {:induction false} MembersStart(fields: seq<Field>, t: Text)
    requires !IsDigit(t)
    ensures !IsDigit(Members(COMMA, fields) + t)
  {
    if fields == [] {
      NothingAround(t);
    } else {
      MembersUnfold(COMMA, fields);
    }
  }

  lemma {:induction false} MembersStep(b: Text, lead: Byte, schema: seq<(Text, bool)>, u: Text, v: Value, w: Text,
          more: seq<Value>, t: Text)
    requires schema != [] && Expect(b, [lead] + KeyBytes(schema[0].0)) == Done((), u)
    requires ParseValue(u, schema[0].1) == Done(v, w) && ParseMembers(w, COMMA, schema[1..]) == Done(more, t)
    ensures ParseMembers(b, lead, schema) == Done([v] + more, t)
  {
  }

  lemma {:induction false} MembersSplit(lead: Text, key: Text, value: Text, rest: Text, t: Text)
    ensures ((lead + (key + value)) + rest) + t == (lead + key) + (value + (rest + t))
  {
    Associates(lead + (key + value), rest, t);
    Associates(lead, key, value);
    Associates(lead + key, value, rest + t);
  }

  lemma {:induction false} SchemaSplits(fields: seq<Field>)
    requires fields != []
    ensures SchemaOf(fields)[0] == (fields[0].key, fields[0].value.Str?)
            && SchemaOf(fields)[1..] == SchemaOf(fields[1..])
    ensures ValuesOf(fields) == [fields[0].value] + ValuesOf(fields[1..])
  {
  }

  // What the parser sees in front of one more member.
  lemma {:induction false} NextMember(lead: Byte, f: Field, rest: Text, t: Text)
    ensures Expect((Piece(lead, f) + rest) + t, [lead] + KeyBytes(f.key)) == Done((), ValueBytes(f.value) + (rest + t))
  {
    MembersSplit([lead], KeyBytes(f.key), ValueBytes(f.value), rest, t);
    ExpectReads([lead] + KeyBytes(f.key), ValueBytes(f.value) + (rest + t));
  }

  lemma {:induction false} MembersRead(lead: Byte, fields: seq<Field>, t: Text)
    requires !IsDigit(t)
    ensures ParseMembers(Members(lead, fields) + t, lead, SchemaOf(fields)) == Done(ValuesOf(fields), t)
    decreases |fields|
  {
    if fields == [] {
      assert Pieces(lead, fields) == [] && SchemaOf(fields) == [] && ValuesOf(fields) == [];
      NothingAround(t);
    } else {
      var f, rest := fields[0], fields[1..];
      var tail := Members(COMMA, rest) + t;
      MembersUnfold(lead, fields);
      NextMember(lead, f, Members(COMMA, rest), t);
      MembersStart(rest, t);
      ValueReads(f.value, tail);
      MembersRead(COMMA, rest, t);
      SchemaSplits(fields);
      MembersStep(Members(lead, fields) + t, lead, SchemaOf(fields), ValueBytes(f.value) + tail, f.value, tail,
                  ValuesOf(rest), t);
    }
  }

  lemma {:induction false} DocReads(k: Keys, d: Doc, t: Text)
    ensures ParseDoc(k, DocBytes(k, d) + t) == Done(d, t)
  {
    var fs := FieldsOf(k, d);
    Associates(Members(OPEN_BRACE, fs), [CLOSE_BRACE], t);
    MembersRead(OPEN_BRACE, fs, [CLOSE_BRACE] + t);
    SameSchema(k, d);
    ValuesGiveDoc(k, d);
    ExpectReads([CLOSE_BRACE], t);
  }

  lemma {:induction false} SameSchema(k: Keys, d: Doc)
    ensures SchemaOf(FieldsOf(k, d)) == DocSchema(k)
  {
  }

  lemma {:induction false} ValuesGiveDoc(k: Keys, d: Doc)
    ensures DocValues(ValuesOf(FieldsOf(k, d))) && DocFrom(ValuesOf(FieldsOf(k, d))) == d
  {
  }

  lemma {:induction false} DocStarts(k: Keys, d: Doc, t: Text)
    ensures DocBytes(k, d) + t != [] && (DocBytes(k, d) + t)[0] == OPEN_BRACE
    ensures |DocBytes(k, d)| > 0
  {
  }

  // Documents read back up to the closing bracket, whatever follows it.
  lemma {:induction false} DocsRead(k: Keys, lead: Text, docs: seq<Doc>, t: Text)
    requires lead == [] || lead == [COMMA]
    ensures ParseDocs(k, DocsBytes(k, lead, docs) + ([CLOSE_BRACKET] + t), lead) == Done(docs, t)
    decreases |docs|
  {
    var end := [CLOSE_BRACKET] + t;
    if docs == [] {
      assert DocPieces(k, lead, docs) == [];
      NothingAround(end);
      ExpectReads([CLOSE_BRACKET], t);
    } else {
      var rest := DocsBytes(k, [COMMA], docs[1..]);
      DocsUnfold(k, lead, docs);
      NextDoc(k, lead, docs[0], rest, end);
      DocReads(k, docs[0], rest + end);
      DocsRead(k, [COMMA], docs[1..], t);
      assert docs == [docs[0]] + docs[1..];
      DocsStep(k, DocsBytes(k, lead, docs) + end, lead, DocBytes(k, docs[0]) + (rest + end), docs[0], rest + end,
               docs[1..], t);
    }
  }

  lemma {:induction false} DocsStep(k: Keys, b: Text, lead: Text, u: Text, d: Doc, v: Text, more: seq<Doc>, t: Text)
    requires Expect(b, [CLOSE_BRACKET]).Fail? && Expect(b, lead) == Done((), u) && ParseDoc(k, u) == Done(d, v)
             && |v| < |b|
    requires ParseDocs(k, v, [COMMA]) == Done(more, t)
    ensures ParseDocs(k, b, lead) == Done([d] + more, t)
  {
  }

  // What the parser sees in front of one more document.
  lemma {:induction false} NextDoc(k: Keys, lead: Text, d: Doc, rest: Text, end: Text)
    requires lead == [] || lead == [COMMA]
    ensures var b := ((lead + DocBytes(k, d)) + rest) + end;
            Expect(b, [CLOSE_BRACKET]).Fail? && Expect(b, lead) == Done((), DocBytes(k, d) + (rest + end))
            && |rest + end| < |b|
  {
    hide DocBytes;
    var doc := DocBytes(k, d);
    var b := ((lead + doc) + rest) + end;
    DocStarts(k, d, rest + end);
    Regroup(lead, doc, rest, end);
    assert b == lead + (doc + (rest + end));
    ExpectReads(lead, doc + (rest + end));
    assert b[0] != CLOSE_BRACKET;
  }

  lemma {:induction false} HeadReads(k: Keys, m: IndexManifest, t: Text)
    ensures ParseHead(k, Members(OPEN_BRACE, HeadFields(k, m)) + (DocsKey(k) + t)) == Done((m.moduleId, m.releaseId), t)
  {
    assert (DocsKey(k) + t)[0] == COMMA;
    MembersRead(OPEN_BRACE, HeadFields(k, m), DocsKey(k) + t);
    assert SchemaOf(HeadFields(k, m)) == [(k.moduleId, true), (k.releaseId, true)];
    ExpectReads(DocsKey(k), t);
  }

  lemma {:induction false} CanonicalSplits(k: Keys, m: IndexManifest, t: Text)
    ensures Canonical(k, m) + t ==
              Members(OPEN_BRACE, HeadFields(k, m))
                  + (DocsKey(k) + (DocsBytes(k, [], m.docs) + ([CLOSE_BRACKET] + ([CLOSE_BRACE] + t))))
  {
    EndSplits(Members(OPEN_BRACE, HeadFields(k, m)), DocsKey(k), DocsBytes(k, [], m.docs), CLOSE_BRACKET, CLOSE_BRACE,
              t);
  }

  lemma {:induction false} EndSplits(a: Text, b: Text, c: Text, d: Byte, e: Byte, t: Text)
    ensures (a + (b + (c + [d, e]))) + t == a + (b + (c + ([d] + ([e] + t))))
  {
    assert [d, e] + t == [d] + ([e] + t);
    Associates(a, b + (c + [d, e]), t);
    Associates(b, c + [d, e], t);
    Associates(c, [d, e], t);
  }

  // The manifest content apart from the ID comes back, with whatever follows it.
  lemma {:induction false} CanonicalReads(k: Keys, m: IndexManifest, t: Text)
    ensures Parse(k, Canonical(k, m) + t) == Done(m.(manifestId := []), t)
  {
    CanonicalSplits(k, m, t);
    HeadReads(k, m, DocsBytes(k, [], m.docs) + ([CLOSE_BRACKET] + ([CLOSE_BRACE] + t)));
    DocsRead(k, [], m.docs, [CLOSE_BRACE] + t);
    ExpectReads([CLOSE_BRACE], t);
  }

  // Two manifests print alike exactly if they differ in nothing but the ID; and neither
  // canonical form is a proper prefix of another.
  lemma {:induction false} CanonicalInjective(k: Keys, a: IndexManifest, b: IndexManifest)
    ensures Canonical(k, a) == Canonical(k, b) <==> a.(manifestId := []) == b.(manifestId := [])
    ensures Canonical(k, a) <= Canonical(k, b) ==> Canonical(k, a) == Canonical(k, b)
  {
    var x, y := Canonical(k, a), Canonical(k, b);
    CanonicalReads(k, a, []);
    CanonicalReads(k, b, []);
    assert x + [] == x && y + [] == y;
    if x <= y {
      assert y == x + y[|x|..];
      CanonicalReads(k, a, y[|x|..]);
    }
  }

  // ---------- validation and identity ----------

  predicate SoundDoc(d: Doc) {
    1 <= d.multiTokens <= MAX_MULTI_TOKENS && d.budgetBytes > 0 && d.encoderId != []
  }

  predicate Valid(m: IndexManifest) {
    m.docs != [] && forall i :: 0 <= i < |m.docs| ==> SoundDoc(m.docs[i])
  }

  method Validate(m: IndexManifest) returns (ok: bool)
    ensures ok <==> Valid(m)
  {
    if |m.docs| < 1 {
      return false;
    }
    for i := 0 to |m.docs|
      invariant forall k :: 0 <= k < i ==> SoundDoc(m.docs[k])
    {
      var d := m.docs[i];
      if d.multiTokens < 1 || d.multiTokens > MAX_MULTI_TOKENS {
        return false;
      }
      if d.budgetBytes <= 0 {
        return false;
      }
      if d.encoderId == [] {
        return false;
      }
    }
    ok := true;
  }

  const ID_BYTES := 16

  // A digest long enough to take an ID from; SHA-256 gives 32 bytes.
  ghost predicate LongEnough(digest: Text -> Text) {
    forall b :: |digest(b)| >= ID_BYTES
  }

  // The front of a digest that an ID is made of.
  function IdFront(digest: Text -> Text, b: Text): Text
    requires |digest(b)| >= ID_BYTES
  {
    digest(b)[..ID_BYTES]
  }

  function ManifestId(k: Keys, digest: Text -> Text, m: IndexManifest): Text
    requires |digest(Canonical(k, m))| >= ID_BYTES
  {
    Hex(IdFront(digest, Canonical(k, m)))
  }

  // Two different canonical forms whose digests have the same front.
  predicate Collide(k: Keys, digest: Text -> Text, a: IndexManifest, b: IndexManifest)
    requires |digest(Canonical(k, a))| >= ID_BYTES && |digest(Canonical(k, b))| >= ID_BYTES
  {
    Canonical(k, a) != Canonical(k, b) && IdFront(digest, Canonical(k, a)) == IdFront(digest, Canonical(k, b))
  }

  // Two manifests have one ID exactly if they have the same content or their own canonical
  // forms collide; the ID stored with them does not matter.
  lemma {:induction false} IdIdentifiesContent(k: Keys, digest: Text -> Text, a: IndexManifest, b: IndexManifest)
    requires |digest(Canonical(k, a))| >= ID_BYTES && |digest(Canonical(k, b))| >= ID_BYTES
    ensures ManifestId(k, digest, a) == ManifestId(k, digest, b)
            <==> a.(manifestId := []) == b.(manifestId := []) || Collide(k, digest, a, b)
  {
    CanonicalInjective(k, a, b);
    if ManifestId(k, digest, a) == ManifestId(k, digest, b) {
      HexInjective(IdFront(digest, Canonical(k, a)), IdFront(digest, Canonical(k, b)));
    }
  }

  // A manifest held by reference.
  class ManifestCell {
    var value: IndexManifest

    constructor (m: IndexManifest)
      ensures value == m
    {
      value := m;
    }

    // Writes the ID derived from the content; the ID of the result is the one it carries.
    method AssignID(k: Keys, digest: Text -> Text)
      requires LongEnough(digest)
      modifies this
      ensures value == old(value).(manifestId := value.manifestId)
      ensures ManifestId(k, digest, value) == value.manifestId
    {
      var bytes := CanonicalJSON(k, value);
      var id := Hex(digest(bytes)[..ID_BYTES]);
      IdIdentifiesContent(k, digest, value, value.(manifestId := id));
      value := value.(manifestId := id);
    }
  }
}
