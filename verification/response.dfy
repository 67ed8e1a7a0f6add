/** The decoded-result side of response.go: turning the rendered query results
    into rows, and reading the transaction handle, the query handle, the query
    results and the comet handle out of a response's "result" object. */
module Response {
  import opened Wrappers
  import opened Envelope
  import opened Text

  /** The three rewrites applied to a rendered query result, in their order:
      every "[[" is deleted, then every "]]", then every "] [" becomes ",". */
  function Rewrite(result: string): string
  {
    Replace(Replace(Replace(result, "[[", ""), "]]", ""), "] [", ",")
  }

  /** fixQueryResults: the rewritten string cut at every ",". The rows are
      comma-free and join back into the rewritten string. */
  function FixQueryResults(result: string): (rows: seq<string>)
    ensures |rows| >= 1
    ensures forall k :: 0 <= k < |rows| ==> !Contains(rows[k], ",")
    ensures Join(rows, ",") == Rewrite(result)
  {
    var csv := Rewrite(result);
    SplitThenJoin(csv, ",");
    SplitPiecesAvoidSeparator(csv, ",");
    Split(csv, ",")
  }

  /** The rows are the only comma-free cut of the rewritten string. */
  lemma FixQueryResultsUnique(result: string, rows: seq<string>)
    requires |rows| >= 1
    requires forall k :: 0 <= k < |rows| ==> !Contains(rows[k], ",")
    requires Join(rows, ",") == Rewrite(result)
    ensures rows == FixQueryResults(result)
  {
    JoinThenSplit(rows, ",");
  }

  /** A string none of the rewrites touches and holding no "," is one row. */
  lemma FixQueryResultsPlain(s: string)
    requires !Contains(s, "[[") && !Contains(s, "]]") && !Contains(s, "] [")
    requires !Contains(s, ",")
    ensures FixQueryResults(s) == [s]
  {
    ReplaceAbsent(s, "[[", "");
    ReplaceAbsent(s, "]]", "");
    ReplaceAbsent(s, "] [", ",");
    JoinThenSplit([s], ",");
  }

  /** The empty rendering gives one empty row, not an empty list. */
  lemma FixQueryResultsEmpty()
    ensures FixQueryResults("") == [""]
  {
    FixQueryResultsPlain("");
  }

  /** Text a rendering can hold inside a row: no bracket and no comma. */
  predicate PlainText(s: string)
  {
    Lacks(s, '[') && Lacks(s, ']') && Lacks(s, ',')
  }

  /** The second row and the closing brackets hold no "[[". */
  lemma SecondRowKeepsOpening(b: string)
    requires PlainText(b)
    ensures Replace("[" + b + "]]", "[[", "") == "[" + b + "]]"
  {
    var after := b + "]]";
    assert "[" + b + "]]" == ['['] + after;
    assert after[0] != '[';
    assert (['['] + after)[1] == after[0];
    ReplaceSkip('[', after, "[[", "");
    LacksConcat(b, "]]", '[');
    ReplaceAfterFreePrefix(after, "", "[[", "");
    assert after + "" == after;
  }

  /** The two-row rendering, regrouped around the first row's end. */
  lemma RegroupRendering(a: string, b: string)
    ensures "[[" + a + "] [" + b + "]]" == "[[" + ((a + "] ") + ("[" + b + "]]"))
    ensures a + "] [" + b + "]]" == (a + "] ") + ("[" + b + "]]")
  {
    assert "] [" == "] " + "[";
  }

  /** The first row and the break after it hold no "[". */
  lemma FirstRowLacksOpening(a: string)
    requires PlainText(a)
    ensures Lacks(a + "] ", '[')
  {
    assert Lacks("] ", '[');
    LacksConcat(a, "] ", '[');
  }

  lemma DeleteOpeningBrackets(a: string, b: string)
    requires PlainText(a) && PlainText(b)
    ensures Replace("[[" + a + "] [" + b + "]]", "[[", "") == a + "] [" + b + "]]"
  {
    var head := a + "] ";
    var tail := "[" + b + "]]";
    RegroupRendering(a, b);
    calc {
      Replace("[[" + a + "] [" + b + "]]", "[[", "");
      Replace("[[" + (head + tail), "[[", "");
      { ReplaceLeading(head + tail, "[[", ""); }
      "" + Replace(head + tail, "[[", "");
      Replace(head + tail, "[[", "");
      { FirstRowLacksOpening(a);
        ReplaceAfterFreePrefix(head, tail, "[[", ""); }
      head + Replace(tail, "[[", "");
      { SecondRowKeepsOpening(b); }
      head + tail;
      a + "] [" + b + "]]";
    }
  }

  /** Between the rows "]]" does not occur; at the end it is deleted. */
  lemma SecondRowLosesClosing(b: string)
    requires PlainText(b)
    ensures Replace("] [" + b + "]]", "]]", "") == "] [" + b
  {
    var body := " [" + b;
    assert "] [" + b + "]]" == [']'] + (body + "]]");
    assert ([']'] + (body + "]]"))[1] == ' ';
    ReplaceSkip(']', body + "]]", "]]", "");
    LacksConcat(" [", b, ']');
    ReplaceAfterFreePrefix(body, "]]", "]]", "");
    assert "]]" == "]]" + "";
    ReplaceLeading("", "]]", "");
    assert [']'] + (body + "") == "] [" + b;
  }

  lemma DeleteClosingBrackets(a: string, b: string)
    requires PlainText(a) && PlainText(b)
    ensures Replace(a + "] [" + b + "]]", "]]", "") == a + "] [" + b
  {
    assert a + "] [" + b + "]]" == a + ("] [" + b + "]]");
    ReplaceAfterFreePrefix(a, "] [" + b + "]]", "]]", "");
    SecondRowLosesClosing(b);
    assert a + ("] [" + b) == a + "] [" + b;
  }

  lemma RewriteRowBreak(a: string, b: string)
    requires PlainText(a) && PlainText(b)
    ensures Replace(a + "] [" + b, "] [", ",") == a + "," + b
  {
    assert a + "] [" + b == a + ("] [" + b);
    ReplaceAfterFreePrefix(a, "] [" + b, "] [", ",");
    ReplaceLeading(b, "] [", ",");
    ReplaceAfterFreePrefix(b, "", "] [", ",");
    assert b + "" == b;
  }

  /** A two-row rendering gives one element per row, each row's text kept
      as it was (values inside a row stay separated by spaces). */
  lemma FixQueryResultsTwoRows(a: string, b: string)
    requires PlainText(a) && PlainText(b)
    ensures FixQueryResults("[[" + a + "] [" + b + "]]") == [a, b]
  {
    var rendering := "[[" + a + "] [" + b + "]]";
    DeleteOpeningBrackets(a, b);
    DeleteClosingBrackets(a, b);
    RewriteRowBreak(a, b);
    assert Rewrite(rendering) == a + "," + b;
    AbsentFirstChar(a, ",");
    AbsentFirstChar(b, ",");
    JoinCons(a, [b], ",");
    FixQueryResultsUnique(rendering, [a, b]);
  }

  /** The two-row example: "[[a b] [c d]]" gives ["a b", "c d"], not four values. */
  lemma FixQueryResultsExample()
    ensures FixQueryResults("[[a b] [c d]]") == ["a b", "c d"]
  {
    assert "[[a b] [c d]]" == "[[" + "a b" + "] [" + "c d" + "]]";
    FixQueryResultsTwoRows("a b", "c d");
  }

  /** The "result" object after decoding `body` into a response that already
      holds `m`: decoding into an existing map keeps its other entries, and a
      body that cannot be decoded leaves it alone. */
  function Merge(m: ResultMap, body: Body): (r: ResultMap)
    ensures body.Decoded? ==> r.Keys == m.Keys + body.result.Keys
    ensures body.Decoded? ==> forall k :: k in body.result ==> r[k] == body.result[k]
    ensures body.Decoded? ==> forall k :: k in m && k !in body.result ==> r[k] == m[k]
    ensures body.Undecodable? ==> r == m
  {
    if body.Decoded? then m + body.result else m
  }

  /** The handle under `key` that a new response reads out of `body`, or 0. */
  function HandleOf(body: Body, key: string): int
    requires key == "th" || key == "qh"
  {
    if body.Decoded? && key in body.result then body.result[key].n else 0
  }

  /** NsoJsonResponse: the decoded response a caller reads values out of. */
  class NsoJsonResponse {
    var result: ResultMap

    /** NewNsoJsonResponse: an empty response. */
    constructor()
      ensures result == map[]
    {
      result := map[];
    }

    /** ResponseToStruct: decodes `body` into this response. */
    method ResponseToStruct(body: Body) returns (err: Option<string>)
      modifies this
      ensures result == Merge(old(result), body)
      ensures err == body.Error()
    {
      result := Merge(result, body);
      err := body.Error();
    }

    /** The for-range scan over the result object that stops at `key`. */
    method Find(key: string) returns (v: Option<Value>)
      ensures v.Some? <==> key in result
      ensures v.Some? ==> v.value == result[key]
    {
      v := None;
      var keys := result.Keys;
      while keys != {}
        invariant keys <= result.Keys
        invariant key in result ==> key in keys
        decreases |keys|
      {
        var k :| k in keys;
        if k == key {
          v := Some(result[k]);
          return;
        }
        keys := keys - {k};
      }
    }

    /** The number under "th" or "qh", or 0 when the key is absent. */
    method FindNumber(key: string) returns (n: int)
      requires key == "th" || key == "qh"
      ensures key in result ==> n == result[key].n
      ensures key !in result ==> n == 0
    {
      var v := Find(key);
      n := if v.Some? then v.value.n else 0;
    }

    /** GetTransactionHandle: decodes `body`, ignoring a decoding error, and
        returns the "th" of the result, or 0. */
    method GetTransactionHandle(body: Body) returns (th: int)
      modifies this
      ensures result == Merge(old(result), body)
      ensures body.Decoded? && "th" in body.result ==> th == body.result["th"].n
      ensures "th" !in result ==> th == 0
      ensures "th" in result ==> th == result["th"].n
    {
      var _ := ResponseToStruct(body);
      th := FindNumber("th");
    }

    /** GetQueryHandle: decodes `body`, ignoring a decoding error, and returns
        the "qh" of the result, or 0. */
    method GetQueryHandle(body: Body) returns (qh: int)
      modifies this
      ensures result == Merge(old(result), body)
      ensures body.Decoded? && "qh" in body.result ==> qh == body.result["qh"].n
      ensures "qh" !in result ==> qh == 0
      ensures "qh" in result ==> qh == result["qh"].n
    {
      var _ := ResponseToStruct(body);
      qh := FindNumber("qh");
    }

    /** GetQueryResults: the decoding error with no rows; the rows of the
        "results" value; or no rows and "could not find results". */
    method GetQueryResults(body: Body) returns (rows: seq<string>, err: Option<string>)
      modifies this
      ensures result == Merge(old(result), body)
      ensures body.Undecodable? ==> rows == [] && err == Some(body.err)
      ensures body.Decoded? && "results" in result ==>
        err == None && rows == FixQueryResults(result["results"].s)
      ensures body.Decoded? && "results" !in result ==>
        rows == [] && err == Some("could not find results")
    {
      err := ResponseToStruct(body);
      if err.Some? {
        return [], err;
      }
      var v := Find("results");
      if v.Some? {
        return FixQueryResults(v.value.s), None;
      }
      return [], Some("could not find results");
    }

    /** GetCometHandle: the decoding error with ""; the "handle" value; or ""
        and "could not find handle". */
    method GetCometHandle(body: Body) returns (handle: string, err: Option<string>)
      modifies this
      ensures result == Merge(old(result), body)
      ensures body.Undecodable? ==> handle == "" && err == Some(body.err)
      ensures body.Decoded? && "handle" in result ==> err == None && handle == result["handle"].s
      ensures body.Decoded? && "handle" !in result ==>
        handle == "" && err == Some("could not find handle")
    {
      err := ResponseToStruct(body);
      if err.Some? {
        return "", err;
      }
      var v := Find("handle");
      if v.Some? {
        return v.value.s, None;
      }
      return "", Some("could not find handle");
    }
  }
}
