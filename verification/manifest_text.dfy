// The canonical JSON as text: the members in their order, with their names, and how strings
// and numbers are written.
module ManifestText {
  import opened Basics
  import opened Bytes
  import opened Manifest

  // ---------- a template and its values ----------

  // Fixed texts, each followed by a value.
  function Template(texts: seq<string>, values: seq<Value>): Text
    requires |texts| == |values|
  {
    if texts == [] then []
    else (Ascii(texts[0]) + ValueBytes(values[0])) + Template(texts[1..], values[1..])
  }

  // A member name, quoted, between what separates it from the one before and a colon.
  function Quoted(lead: string, name: string): string {
    lead + "\"" + name + "\":"
  }

  const HEAD := [Quoted("{", "module_id"), Quoted(",", "release_id")]

  const DOC := [Quoted("{", "doc_key"), Quoted(",", "structure_ref"), Quoted(",", "dense_ref"),
                Quoted(",", "sparse_ref"), Quoted(",", "multi_ref"), Quoted(",", "multi_tokens"),
                Quoted(",", "encoder_id"), Quoted(",", "source_chars"), Quoted(",", "budget_bytes")]

  function DocText(d: Doc): Text {
    Template(DOC, [Str(d.docKey), Str(d.structureRef), Str(d.denseRef), Str(d.sparseRef), Str(d.multiRef),
                   Num(d.multiTokens), Str(d.encoderId), Num(d.sourceChars), Num(d.budgetBytes)]) + Ascii("}")
  }

  // Documents in their order, with commas between them.
  function DocsText(docs: seq<Doc>): Text {
    if docs == [] then []
    else if |docs| == 1 then DocText(docs[0])
    else DocText(docs[0]) + (Ascii(",") + DocsText(docs[1..]))
  }

  // ---------- the members ----------

  lemma {:induction false} AsciiJoin(a: string, b: string)
    ensures Ascii(a + b) == Ascii(a) + Ascii(b)
  {
  }

  lemma {:induction false} PieceText(lead: string, name: string, v: Value)
    requires |lead| == 1 && lead[0] < 128 as char
    ensures Piece(lead[0] as int, Field(Ascii(name), v)) == Ascii(Quoted(lead, name)) + ValueBytes(v)
  {
    hide ValueBytes;
    AsciiJoin(lead + "\"" + name, "\":");
    AsciiJoin(lead + "\"", name);
    AsciiJoin(lead, "\"");
    assert Ascii("\"") == [QUOTE] && Ascii("\":") == [QUOTE, COLON] && Ascii(lead) == [lead[0] as int];
    Associates([lead[0] as int], KeyBytes(Ascii(name)), ValueBytes(v));
    Associates([lead[0] as int], [QUOTE] + Ascii(name), [QUOTE, COLON]);
    Associates([lead[0] as int], [QUOTE], Ascii(name));
  }

  // The fixed texts around members of these names.
  predicate Around(texts: seq<string>, names: seq<string>, lead: string) {
    |texts| == |names|
    && forall i :: 0 <= i < |names| ==> texts[i] == Quoted(if i == 0 then lead else ",", names[i])
  }

  predicate Named(fields: seq<Field>, names: seq<string>, values: seq<Value>) {
    |fields| == |names| == |values| && forall i :: 0 <= i < |fields| ==> fields[i] == Field(Ascii(names[i]), values[i])
  }

  lemma {:induction false} MembersText(lead: string, texts: seq<string>, names: seq<string>, fields: seq<Field>,
          values: seq<Value>)
    requires |lead| == 1 && lead[0] < 128 as char && Around(texts, names, lead) && Named(fields, names, values)
    ensures Members(lead[0] as int, fields) == Template(texts, values)
    decreases |fields|
  {
    hide Piece, ValueBytes, Ascii, Quoted;
    if fields != [] {
      MembersUnfold(lead[0] as int, fields);
      PieceText(lead, names[0], values[0]);
      if |fields| > 1 {
        assert "," == ","[..];
        MembersText(",", texts[1..], names[1..], fields[1..], values[1..]);
      }
    }
  }

  lemma {:induction false} HeadText(m: IndexManifest)
    ensures Members(OPEN_BRACE, HeadFields(KEYS, m)) == Template(HEAD, [Str(m.moduleId), Str(m.releaseId)])
  {
    MembersText("{", HEAD, ["module_id", "release_id"], HeadFields(KEYS, m), [Str(m.moduleId), Str(m.releaseId)]);
  }

  lemma {:induction false} DocIsText(d: Doc)
    ensures DocBytes(KEYS, d) == DocText(d)
  {
    assert Ascii("}") == [CLOSE_BRACE];
    hide Template, Members, Quoted, Ascii;
    var names := ["doc_key", "structure_ref", "dense_ref", "sparse_ref", "multi_ref", "multi_tokens", "encoder_id",
                  "source_chars", "budget_bytes"];
    var values := [Str(d.docKey), Str(d.structureRef), Str(d.denseRef), Str(d.sparseRef), Str(d.multiRef),
                   Num(d.multiTokens), Str(d.encoderId), Num(d.sourceChars), Num(d.budgetBytes)];
    MembersText("{", DOC, names, FieldsOf(KEYS, d), values);
  }

  lemma {:induction false} DocsAreText(docs: seq<Doc>, lead: Text)
    ensures docs != [] ==> DocsBytes(KEYS, lead, docs) == lead + DocsText(docs)
    ensures docs == [] ==> DocsBytes(KEYS, lead, docs) == DocsText(docs) == []
  {
    hide DocText, DocBytes;
    if docs != [] {
      DocsUnfold(KEYS, lead, docs);
      DocIsText(docs[0]);
      DocsAreText(docs[1..], [COMMA]);
      assert Ascii(",") == [COMMA];
      if |docs| == 1 {
        NothingAround(lead + DocText(docs[0]));
      } else {
        Associates(lead, DocText(docs[0]), Ascii(",") + DocsText(docs[1..]));
      }
    }
  }

  // The whole canonical form, byte for byte.
  lemma {:induction false} CanonicalText(m: IndexManifest)
    ensures Canonical(KEYS, m)
         == Template(HEAD, [Str(m.moduleId), Str(m.releaseId)])
            + (Ascii(Quoted(",", "docs") + "[") + (DocsText(m.docs) + Ascii("]}")))
  {
    hide Template, Members, DocsText, DocsBytes, HeadFields;
    HeadText(m);
    DocsAreText(m.docs, []);
    NothingAround(DocsText(m.docs));
    assert DocsKey(KEYS) == Ascii(Quoted(",", "docs") + "[") && Ascii("]}") == [CLOSE_BRACKET, CLOSE_BRACE];
  }

  // ---------- strings and numbers ----------

  // The escapes of section 7 of RFC 8259: the short ones, six characters for any other control
  // character, and nothing for the rest.
  lemma {:induction false} ShortEscapes()
    ensures Escape(34) == Ascii("\\\"") && Escape(92) == Ascii("\\\\")
    ensures Escape(8) == Ascii("\\b") && Escape(9) == Ascii("\\t") && Escape(10) == Ascii("\\n")
            && Escape(12) == Ascii("\\f") && Escape(13) == Ascii("\\r")
  {
  }

  lemma {:induction false} LongEscapes(c: Byte)
    requires c !in {34, 92, 8, 9, 10, 12, 13}
    ensures c < 32 ==> Escape(c) == Ascii("\\u00") + [if c < 16 then 48 else 49, HexDigit(c % 16)]
    ensures c >= 32 ==> Escape(c) == [c]
  {
  }

  lemma {:induction false} HexDigits(n: nat)
    requires n < 16
    ensures HexDigit(n) == Ascii("0123456789abcdef")[n]
  {
  }

  lemma {:induction false} StringText(s: Text, t: Text)
    ensures StringBytes(s) == Ascii("\"") + (Escaped(s) + Ascii("\""))
    ensures Escaped(s + t) == Escaped(s) + Escaped(t)
  {
    if s == [] {
      assert s + t == t;
    } else {
      assert (s + t)[1..] == s[1..] + t;
      StringText(s[1..], t);
      Associates(Escape(s[0]), Escaped(s[1..]), Escaped(t));
    }
  }

  // Numbers have no leading zero, and a sign only if they are negative.
  lemma {:induction false} NumberText(n: int)
    ensures n >= 0 ==> forall i :: 0 <= i < |Decimal(n)| ==> 48 <= Decimal(n)[i] <= 57
    ensures n > 0 ==> Decimal(n)[0] != 48
    ensures Decimal(0) == Ascii("0")
    ensures n < 0 ==> Decimal(n) == Ascii("-") + Decimal(-n)
    ensures n >= 10 ==> Decimal(n) == Decimal(n / 10) + [48 + n % 10]
    decreases if n < 0 then 1 - n else n
  {
    if n < 0 {
      NumberText(-n);
    } else if n >= 10 {
      NumberText(n / 10);
    }
  }
}
