/**
 * Flattening of an operation's security requirements into one scheme-to-scopes
 * map (getSecuritySchemes), and the mask-field list literal of a field filter
 * (getFormattedMaskFields).
 */
module Security {
  import opened Common
  import opened Text

  type Scopes = seq<string>

  /** One Security Requirement Object: scheme names with their scopes, in iteration order. */
  type Requirement = seq<(string, Scopes)>

  /** The scheme names a requirement lists. */
  function Names(req: Requirement): set<string> {
    set p | 0 <= p < |req| :: req[p].0
  }

  /** The map the inner loop builds from one requirement: a later entry overwrites an earlier one. */
  function RequirementMap(req: Requirement): (m: map<string, Scopes>)
    ensures m.Keys == Names(req)
  {
    if req == [] then map[]
    else
      var init := req[..|req| - 1];
      var m0 := RequirementMap(init);
      assert Names(req) == Names(init) + {req[|req| - 1].0} by {
        forall k | k in Names(req) ensures k in Names(init) + {req[|req| - 1].0} {
          var p :| 0 <= p < |req| && req[p].0 == k;
          if p < |req| - 1 {
            assert init[p] == req[p];
          }
        }
        forall k | k in Names(init) ensures k in Names(req) {
          var p :| 0 <= p < |init| && init[p].0 == k;
          assert req[p] == init[p];
        }
      }
      m0[req[|req| - 1].0 := req[|req| - 1].1]
  }

  /** The whole map: requirements applied in order, a later one overriding an earlier one. */
  function Schemes(reqs: seq<Requirement>): map<string, Scopes> {
    if reqs == [] then map[]
    else Schemes(reqs[..|reqs| - 1]) + RequirementMap(reqs[|reqs| - 1])
  }

  /** getSecuritySchemes */
  method SecuritySchemes(reqs: seq<Requirement>) returns (m: map<string, Scopes>)
    ensures m == Schemes(reqs)
  {
    m := map[];
    for i := 0 to |reqs|
      invariant m == Schemes(reqs[..i])
    {
      var req := reqs[i];
      assert reqs[..i + 1][..i] == reqs[..i];
      ghost var before := m;
      for j := 0 to |req|
        invariant m == before + RequirementMap(req[..j])
      {
        OverrideStep(before, req, j);
        m := m[req[j].0 := req[j].1];
      }
      assert req[..|req|] == req;
    }
    assert reqs[..|reqs|] == reqs;
  }

  lemma OverrideStep(before: map<string, Scopes>, req: Requirement, j: nat)
    requires j < |req|
    ensures (before + RequirementMap(req[..j]))[req[j].0 := req[j].1] == before + RequirementMap(req[..j + 1])
  {
    assert req[..j + 1][..j] == req[..j];
  }

  /** Within one requirement, an entry no later entry renames is the one the map keeps. */
  lemma {:induction false} RequirementMapLast(req: Requirement, p: nat)
    requires p < |req|
    requires forall q :: p < q < |req| ==> req[q].0 != req[p].0
    ensures RequirementMap(req)[req[p].0] == req[p].1
  {
    if p < |req| - 1 {
      var init := req[..|req| - 1];
      assert init[p] == req[p];
      RequirementMapLast(init, p);
    }
  }

  /** The keys are exactly the scheme names of all the requirements together. */
  lemma {:induction false} SchemesKeys(reqs: seq<Requirement>, k: string)
    ensures k in Schemes(reqs) <==> exists r :: 0 <= r < |reqs| && k in Names(reqs[r])
  {
    if reqs != [] {
      var init := reqs[..|reqs| - 1];
      SchemesKeys(init, k);
      if exists r :: 0 <= r < |init| && k in Names(init[r]) {
        var r :| 0 <= r < |init| && k in Names(init[r]);
        assert reqs[r] == init[r];
      }
      if exists r :: 0 <= r < |reqs| && k in Names(reqs[r]) {
        var r :| 0 <= r < |reqs| && k in Names(reqs[r]);
        if r < |reqs| - 1 {
          assert init[r] == reqs[r];
        }
      }
    }
  }

  /** A scheme maps to its scopes in the last requirement that names it. */
  lemma {:induction false} SchemesLast(reqs: seq<Requirement>, r: nat, k: string)
    requires r < |reqs| && k in Names(reqs[r])
    requires forall r' :: r < r' < |reqs| ==> k !in Names(reqs[r'])
    ensures k in Schemes(reqs) && Schemes(reqs)[k] == RequirementMap(reqs[r])[k]
  {
    var init := reqs[..|reqs| - 1];
    if r < |reqs| - 1 {
      assert k !in Names(reqs[|reqs| - 1]);
      forall r' | r < r' < |init| ensures k !in Names(init[r']) {
        assert init[r'] == reqs[r'];
      }
      assert init[r] == reqs[r];
      SchemesLast(init, r, k);
    }
  }

  // ------------------------------------------------------------ mask fields

  function QuoteAll(fields: seq<string>): (q: seq<string>)
    ensures |q| == |fields| && forall i :: 0 <= i < |fields| ==> q[i] == Quote(fields[i])
  {
    if fields == [] then [] else QuoteAll(fields[..|fields| - 1]) + [Quote(fields[|fields| - 1])]
  }

  /** The Rego array literal of the fields a field filter lets through. */
  function MaskFieldList(fields: seq<string>): string {
    "[" + Join(QuoteAll(fields), ",") + "]"
  }

  /** getFormattedMaskFields */
  method FormattedMaskFields(fields: seq<string>) returns (r: string)
    ensures r == MaskFieldList(fields)
  {
    var result := new string[|fields|];
    for i := 0 to |fields|
      invariant forall k :: 0 <= k < i ==> result[k] == Quote(fields[k])
    {
      result[i] := Quote(fields[i]);
    }
    assert result[..] == QuoteAll(fields);
    r := "[" + Join(result[..], ",") + "]";
  }

  /** Reads `"…"` items separated by `,` up to the closing `]`. */
  function ParseItems(t: string): Option<seq<string>>
    decreases |t|
  {
    if t == [] || t[0] != '"' then None
    else match ReadQuoted(t[1..])
      case None => None
      case Some((item, used)) =>
        var rest := t[1 + used..];
        if rest == "]" then Some([item])
        else if rest != [] && rest[0] == ',' then
          match ParseItems(rest[1..])
          case None => None
          case Some(items) => Some([item] + items)
        else None
  }

  /** Reads a mask-field list literal back into its fields. */
  function ParseMaskFields(t: string): Option<seq<string>> {
    if t == "[]" then Some([])
    else if t != [] && t[0] == '[' then ParseItems(t[1..])
    else None
  }

  /** One quoted item is read back, then whatever follows it decides how reading goes on. */
  lemma ParseItemsQuoted(f: string, tail: string)
    ensures tail == "]" ==> ParseItems(Quote(f) + tail) == Some([f])
    ensures tail != [] && tail[0] == ',' && ParseItems(tail[1..]).Some? ==>
      ParseItems(Quote(f) + tail) == Some([f] + ParseItems(tail[1..]).value)
  {
    var t := Quote(f) + tail;
    assert t[1..] == Escape(f) + "\"" + tail by {
      ConcatAssoc("\"" + Escape(f), "\"", tail);
      ConcatAssoc("\"", Escape(f) + "\"", tail);
    }
    ReadQuotedEscape(f, tail);
    var used := |Escape(f)| + 1;
    assert t[0] == '"';
    assert ReadQuoted(t[1..]) == Some((f, used));
    assert t[1 + used..] == tail;
  }

  lemma {:induction false} ParseItemsJoin(fields: seq<string>)
    requires fields != []
    ensures ParseItems(Join(QuoteAll(fields), ",") + "]") == Some(fields)
  {
    var f := fields[0];
    assert QuoteAll(fields)[0] == Quote(f);
    if |fields| == 1 {
      assert fields == [f];
      ParseItemsQuoted(f, "]");
    } else {
      var more := Join(QuoteAll(fields[1..]), ",") + "]";
      var tail := "," + more;
      assert QuoteAll(fields)[1..] == QuoteAll(fields[1..]);
      assert Join(QuoteAll(fields), ",") + "]" == Quote(f) + tail by {
        ConcatAssoc(Quote(f) + ",", Join(QuoteAll(fields[1..]), ","), "]");
        ConcatAssoc(Quote(f), ",", more);
      }
      ParseItemsQuoted(f, tail);
      assert tail[1..] == more;
      ParseItemsJoin(fields[1..]);
      assert [f] + fields[1..] == fields;
    }
  }

  /** The list literal loses nothing: it reads back as the fields, in their order. */
  lemma MaskFieldsRoundTrip(fields: seq<string>)
    ensures ParseMaskFields(MaskFieldList(fields)) == Some(fields)
  {
    if fields != [] {
      var body := Join(QuoteAll(fields), ",") + "]";
      ParseItemsJoin(fields);
      ParseItemsNotClosing(fields);
      ConcatAssoc("[", Join(QuoteAll(fields), ","), "]");
      assert MaskFieldList(fields) == "[" + body;
      assert ("[" + body)[1..] == body;
    }
  }

  /** A non-empty list literal is more than the two brackets. */
  lemma ParseItemsNotClosing(fields: seq<string>)
    requires fields != []
    ensures |Join(QuoteAll(fields), ",")| >= 2
  {
    assert QuoteAll(fields)[0] == Quote(fields[0]);
    assert |Quote(fields[0])| >= 2;
  }

  /** Only the empty field list gives `[]`; every list literal is bracketed. */
  lemma MaskFieldsEmpty(fields: seq<string>)
    ensures MaskFieldList(fields) == "[]" <==> fields == []
    ensures HasPrefix(MaskFieldList(fields), "[") && HasSuffix(MaskFieldList(fields), "]")
  {
    MaskFieldsRoundTrip(fields);
  }
}
