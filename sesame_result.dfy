/**
 * Reading a response in the SPARQL Query Results XML Format: the variable
 * names of the header (section 2.2 of the W3C format) and one row per
 * variable-binding result (section 2.3.1). The XML itself is taken as
 * already parsed into a Document.
 */
module SesameResult {
  import opened Wrappers
  import opened Php

  /**
   * One <binding> element. A child is Some when SimpleXML treats it as
   * present: an empty child element without attributes counts as absent.
   */
  datatype Binding = Binding(name: PhpString, literal: Option<PhpString>, uri: Option<PhpString>, bnode: Option<PhpString>)

  /** A parsed document: the names of the <variable>s in <head>, and the <binding>s of each <result>. */
  datatype Document = Document(head: seq<PhpString>, results: seq<seq<Binding>>)

  type Row = map<PhpString, PhpString>

  /** What getRows returns: PHP's false when there is no result, else the list of rows. */
  datatype Rows = NoRows | RowList(rows: seq<Row>)

  const Literal: PhpString := "literal"
  const Uri: PhpString := "uri"
  const Bnode: PhpString := "bnode"

  /** The key that records the kind of the value bound to `name`. */
  function TypeKey(name: PhpString): PhpString {
    name + "_type"
  }

  /** Distinct names have distinct "_type" keys. */
  lemma TypeKeyInjective(m: PhpString, n: PhpString)
    ensures m != n ==> TypeKey(m) != TypeKey(n)
  {
    if TypeKey(m) == TypeKey(n) {
      assert |m| == |n|;
      assert m == TypeKey(m)[..|m|] && n == TypeKey(n)[..|n|];
    }
  }

  /** The value a binding contributes and its kind: the first present of literal, uri and bnode. */
  function BoundValue(b: Binding): (v: Option<(PhpString, PhpString)>)
    ensures v.None? <==> b.literal.None? && b.uri.None? && b.bnode.None?
    ensures v.Some? ==> v.value.1 == Literal || v.value.1 == Uri || v.value.1 == Bnode
  {
    if b.literal.Some? then Some((b.literal.value, Literal))
    else if b.uri.Some? then Some((b.uri.value, Uri))
    else if b.bnode.Some? then Some((b.bnode.value, Bnode))
    else None
  }

  /** The two entries a binding writes into its row, if it has a value. */
  function AddBinding(row: Row, b: Binding): (r: Row)
    ensures BoundValue(b).None? ==> r == row
    ensures BoundValue(b).Some? ==>
      b.name in r && TypeKey(b.name) in r &&
      r[b.name] == BoundValue(b).value.0 && r[TypeKey(b.name)] == BoundValue(b).value.1
  {
    match BoundValue(b)
    case None => row
    case Some((value, kind)) => row[b.name := value][TypeKey(b.name) := kind]
  }

  /** The row of one result: its bindings written in document order. */
  function RowOf(bindings: seq<Binding>): (r: Row)
    ensures |r| <= 2 * |bindings|
  {
    if bindings == [] then map[] else AddBinding(RowOf(bindings[..|bindings| - 1]), bindings[|bindings| - 1])
  }

  /** getRows as a function of the document. */
  function RowsOf(doc: Document): (r: Rows)
    ensures r.NoRows? <==> |doc.results| == 0
    ensures r.RowList? ==> |r.rows| == |doc.results|
    ensures r.RowList? ==> forall i :: 0 <= i < |doc.results| ==> r.rows[i] == RowOf(doc.results[i])
  {
    if |doc.results| == 0 then NoRows else RowList(seq(|doc.results|, i requires 0 <= i < |doc.results| => RowOf(doc.results[i])))
  }

  /** The names of the bindings that carry a value. */
  ghost function BoundNames(bindings: seq<Binding>): set<PhpString> {
    set b | b in bindings && BoundValue(b).Some? :: b.name
  }

  ghost function TypeKeys(names: set<PhpString>): set<PhpString> {
    set n | n in names :: TypeKey(n)
  }

  // ---------------------------------------------------------------------
  // The result object

  class SesameResult {
    const xml: Document

    constructor(xml: Document)
      ensures this.xml == xml
    {
      this.xml := xml;
    }

    /** The header names, one per <variable>, in document order. */
    method GetHeaders() returns (headers: seq<PhpString>)
      ensures |headers| == |xml.head|
      ensures forall i :: 0 <= i < |headers| ==> headers[i] == xml.head[i]
    {
      headers := [];
      var i := 0;
      while i < |xml.head|
        invariant 0 <= i <= |xml.head|
        invariant headers == xml.head[..i]
      {
        headers := headers + [xml.head[i]];
        i := i + 1;
      }
    }

    /** One row per <result>, in document order, or NoRows when there is none. */
    method GetRows() returns (r: Rows)
      ensures r == RowsOf(xml)
    {
      var rows: seq<Row> := [];
      var i := 0;
      while i < |xml.results|
        invariant 0 <= i <= |xml.results|
        invariant |rows| == i
        invariant forall k :: 0 <= k < i ==> rows[k] == RowOf(xml.results[k])
      {
        var result := xml.results[i];
        var row: Row := map[];
        var j := 0;
        while j < |result|
          invariant 0 <= j <= |result|
          invariant row == RowOf(result[..j])
        {
          var binding := result[j];
          var name := binding.name;
          ghost var before := row;
          if binding.literal.Some? {
            row := row[name := binding.literal.value];
            row := row[name + "_type" := Literal];
          } else if binding.uri.Some? {
            row := row[name := binding.uri.value];
            row := row[name + "_type" := Uri];
          } else if binding.bnode.Some? {
            row := row[name := binding.bnode.value];
            row := row[name + "_type" := Bnode];
          }
          assert row == AddBinding(before, binding);
          assert result[..j + 1][..j] == result[..j];
          j := j + 1;
        }
        assert result[..|result|] == result;
        rows := rows + [row];
        i := i + 1;
      }
      if |rows| <= 0 {
        return NoRows;
      }
      r := RowList(rows);
    }

    /** Whether there is a <result>, found without building any row. */
    method HasRows() returns (has: bool)
      ensures has <==> |xml.results| > 0
      ensures has <==> RowsOf(xml).RowList?
    {
      has := false;
      var i := 0;
      while !has && i < |xml.results|
        invariant 0 <= i <= |xml.results|
        invariant has <==> i > 0
      {
        has := true;
        i := i + 1;
      }
    }
  }

  // ---------------------------------------------------------------------
  // Properties of the rows

  /**
   * The last binding decides the entries of its name: literal before uri
   * before bnode, overwriting what earlier bindings of that name wrote, and
   * every other key keeps its entry.
   */
  lemma RowOfLast(bindings: seq<Binding>, b: Binding)
    ensures var before, after := RowOf(bindings), RowOf(bindings + [b]);
      && (b.literal.Some? ==> after[b.name] == b.literal.value && after[TypeKey(b.name)] == Literal)
      && (b.literal.None? && b.uri.Some? ==> after[b.name] == b.uri.value && after[TypeKey(b.name)] == Uri)
      && (b.literal.None? && b.uri.None? && b.bnode.Some? ==>
            after[b.name] == b.bnode.value && after[TypeKey(b.name)] == Bnode)
      && (b.literal.None? && b.uri.None? && b.bnode.None? ==> after == before)
      && (forall k :: k != b.name && k != TypeKey(b.name) ==>
            (k in after <==> k in before) && (k in before ==> after[k] == before[k]))
  {
  }

  /** A binding with none of literal, uri and bnode adds nothing, wherever it stands. */
  lemma {:induction false} RowOfSkipsEmptyBinding(front: seq<Binding>, b: Binding, back: seq<Binding>)
    requires BoundValue(b).None?
    ensures RowOf(front + [b] + back) == RowOf(front + back)
  {
    if back == [] {
      assert front + [b] + back == front + [b];
      assert (front + [b])[..|front|] == front;
      assert front + back == front;
    } else {
      var last := back[|back| - 1];
      var rest := back[..|back| - 1];
      RowOfSkipsEmptyBinding(front, b, rest);
      assert (front + [b] + back)[..|front + [b] + back| - 1] == front + [b] + rest;
      assert (front + back)[..|front + back| - 1] == front + rest;
    }
  }

  /** The keys of a row are exactly the names bound to a value and, for each, its "_type" key. */
  lemma {:induction false} RowKeys(bindings: seq<Binding>)
    ensures RowOf(bindings).Keys == BoundNames(bindings) + TypeKeys(BoundNames(bindings))
  {
    if bindings != [] {
      var front, b := bindings[..|bindings| - 1], bindings[|bindings| - 1];
      assert bindings == front + [b];
      RowKeys(front);
      BoundNamesSnoc(front, b);
      if BoundValue(b).Some? {
        TypeKeysAdd(BoundNames(front), b.name);
      }
    }
  }

  /** A binding added at the end contributes its name exactly when it has a value. */
  lemma BoundNamesSnoc(front: seq<Binding>, b: Binding)
    ensures BoundValue(b).Some? ==> BoundNames(front + [b]) == BoundNames(front) + {b.name}
    ensures BoundValue(b).None? ==> BoundNames(front + [b]) == BoundNames(front)
  {
    assert forall x :: x in front + [b] <==> x in front || x == b;
  }

  /** The "_type" keys of one more name are the old ones and that name's. */
  lemma TypeKeysAdd(names: set<PhpString>, n: PhpString)
    ensures TypeKeys(names + {n}) == TypeKeys(names) + {TypeKey(n)}
  {
  }

  /** Every "_type" entry of a row holds one of the three kinds, unless a binding's own name takes that key. */
  lemma {:induction false} RowTypeValues(bindings: seq<Binding>, name: PhpString)
    requires TypeKey(name) in RowOf(bindings)
    requires forall b :: b in bindings ==> b.name != TypeKey(name)
    ensures RowOf(bindings)[TypeKey(name)] in {Literal, Uri, Bnode}
  {
    var front, b := bindings[..|bindings| - 1], bindings[|bindings| - 1];
    assert bindings == front + [b];
    RowOfLast(front, b);
    if TypeKey(name) != TypeKey(b.name) || BoundValue(b).None? {
      RowTypeValues(front, name);
    }
  }

  /** Bindings whose row keys cannot collide: names are distinct and none is another's "_type" key. */
  ghost predicate NoKeyClash(bindings: seq<Binding>) {
    forall i, j :: 0 <= i < |bindings| && 0 <= j < |bindings| ==>
      (i != j ==> bindings[i].name != bindings[j].name) && bindings[i].name != TypeKey(bindings[j].name)
  }

  /** With no clashing keys, each binding with a value reads back from the row with its kind. */
  lemma {:induction false} RowOfNoClash(bindings: seq<Binding>, i: nat)
    requires NoKeyClash(bindings)
    requires i < |bindings| && BoundValue(bindings[i]).Some?
    ensures var row, b := RowOf(bindings), bindings[i];
      b.name in row && TypeKey(b.name) in row &&
      row[b.name] == BoundValue(b).value.0 && row[TypeKey(b.name)] == BoundValue(b).value.1
  {
    var front, last := bindings[..|bindings| - 1], bindings[|bindings| - 1];
    assert bindings == front + [last];
    RowOfLast(front, last);
    if i < |bindings| - 1 {
      assert NoKeyClash(front) by {
        forall p, q | 0 <= p < |front| && 0 <= q < |front|
          ensures (p != q ==> front[p].name != front[q].name) && front[p].name != TypeKey(front[q].name)
        {
          assert front[p] == bindings[p] && front[q] == bindings[q];
        }
      }
      assert front[i] == bindings[i];
      RowOfNoClash(front, i);
      var n := bindings[i].name;
      assert n != last.name;
      assert n != TypeKey(last.name);
      assert TypeKey(n) != last.name;
      TypeKeyInjective(n, last.name);
    }
  }

  /** A document with variables a and b and one result binding a to a literal and b to a URI. */
  lemma TwoVariableExample(doc: Document)
    requires doc == Document(["a", "b"], [[Binding("a", Some("1"), None, None), Binding("b", None, Some("http://x"), None)]])
    ensures RowsOf(doc) == RowList([map["a" := "1", "a_type" := "literal", "b" := "http://x", "b_type" := "uri"]])
  {
    var bs := doc.results[0];
    assert "a" + "_type" == "a_type" && "b" + "_type" == "b_type";
    assert bs[..1][..0] == [] && bs[..1][0] == bs[0];
    assert RowOf(bs[..1]) == AddBinding(map[], bs[0]) == map["a" := "1", "a_type" := "literal"];
    assert bs[..|bs| - 1] == bs[..1];
    assert RowOf(bs) == AddBinding(RowOf(bs[..1]), bs[1]);
  }
}
