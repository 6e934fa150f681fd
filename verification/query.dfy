/** The query constructor `construir_dork`. */
module Query {
  import opened Optional
  import opened Text
  import opened Catalog

  /** The leading clause: `op:"kw"` for a catalog operator, a bare `"kw"` otherwise.
      The keyword is inserted verbatim, without escaping. */
  function KeywordClause(cat: seq<Operator>, op: string, kw: string): (c: string)
    ensures IsKnown(cat, op) ==> |c| == |op| + |kw| + 3 && c[..|op| + 1] == op + ":"
    ensures !IsKnown(cat, op) ==> |c| == |kw| + 2
    ensures c[|c| - |kw| - 2..] == "\"" + kw + "\""
  {
    if IsKnown(cat, op) then op + ":\"" + kw + "\"" else "\"" + kw + "\""
  }

  /** The `site:` clause, present only when the site is truthy. */
  function SiteParts(site: Option<string>): (parts: seq<string>)
    ensures |parts| == (if Truthy(site) then 1 else 0)
    ensures Truthy(site) ==> parts[0] == "site:" + site.value
  {
    if Truthy(site) then ["site:" + site.value] else []
  }

  /** The `filetype:` clause, present only when the file type is truthy. */
  function FileTypeParts(fileType: Option<string>): (parts: seq<string>)
    ensures |parts| == (if Truthy(fileType) then 1 else 0)
    ensures Truthy(fileType) ==> parts[0] == "filetype:" + fileType.value
  {
    if Truthy(fileType) then ["filetype:" + fileType.value] else []
  }

  /** The list `partes`: the keyword clause, then a `site:` clause when the site
      is truthy, then a `filetype:` clause when the file type is truthy. */
  function Parts(cat: seq<Operator>, op: string, kw: string, site: Option<string>, fileType: Option<string>): (parts: seq<string>)
    ensures 1 <= |parts| <= 3
    ensures parts[0] == KeywordClause(cat, op, kw)
  {
    [KeywordClause(cat, op, kw)] + SiteParts(site) + FileTypeParts(fileType)
  }

  /** `construir_dork(op, kw, site, fileType)`: the parts joined by single spaces. */
  function Build(cat: seq<Operator>, op: string, kw: string, site: Option<string>, fileType: Option<string>): (q: string)
    ensures KeywordClause(cat, op, kw) <= q
  {
    Join(Parts(cat, op, kw, site, fileType), " ")
  }

  /** The text `construir_dork` appends for a site: ` site:<site>` or nothing. */
  function SiteTail(site: Option<string>): (tail: string)
  {
    if Truthy(site) then " site:" + site.value else ""
  }

  /** The text `construir_dork` appends for a file type: ` filetype:<type>` or nothing. */
  function FileTypeTail(fileType: Option<string>): (tail: string)
  {
    if Truthy(fileType) then " filetype:" + fileType.value else ""
  }

  /** Joining two clauses puts one space between them. */
  lemma JoinTwoClauses(first: string, s: string)
    ensures Join([first] + [s], " ") == first + (" " + s)
  {
    JoinSnoc([first], s, " ");
  }

  /** Joining three clauses puts one space between each neighbouring pair. */
  lemma JoinThreeClauses(first: string, s: string, t: string)
    ensures Join([first] + [s] + [t], " ") == first + (" " + s) + (" " + t)
  {
    assert [first] + [s] + [t] == [first, s] + [t];
    assert [first, s] == [first] + [s];
    JoinSnoc([first], s, " ");
    JoinSnoc([first, s], t, " ");
  }

  /** Joining a first clause with the optional clauses by single spaces gives
      the first clause followed by the two tails. */
  lemma JoinClauses(first: string, site: Option<string>, fileType: Option<string>)
    ensures Join([first] + SiteParts(site) + FileTypeParts(fileType), " ") == first + SiteTail(site) + FileTypeTail(fileType)
  {
    var s := "site:" + ValueOr(site);
    var t := "filetype:" + ValueOr(fileType);
    assert Truthy(site) ==> SiteParts(site) == [s] && SiteTail(site) == " " + s;
    assert Truthy(fileType) ==> FileTypeParts(fileType) == [t] && FileTypeTail(fileType) == " " + t;
    if Truthy(site) && Truthy(fileType) {
      JoinThreeClauses(first, s, t);
    } else if Truthy(site) {
      JoinTwoClauses(first, s);
      assert [first] + SiteParts(site) + FileTypeParts(fileType) == [first] + [s];
    } else if Truthy(fileType) {
      JoinTwoClauses(first, t);
      assert [first] + SiteParts(site) + FileTypeParts(fileType) == [first] + [t];
    } else {
      assert [first] + SiteParts(site) + FileTypeParts(fileType) == [first];
    }
  }

  /** The query is the keyword clause, then the site tail, then the file-type
      tail, each clause after the first preceded by exactly one space. */
  lemma BuildShape(cat: seq<Operator>, op: string, kw: string, site: Option<string>, fileType: Option<string>)
    ensures Build(cat, op, kw, site, fileType) == KeywordClause(cat, op, kw) + SiteTail(site) + FileTypeTail(fileType)
  {
    JoinClauses(KeywordClause(cat, op, kw), site, fileType);
  }

  /** A catalog operator is kept: the query opens with `op:"kw"`, and with no
      site and no file type it is exactly that (even for an empty keyword). */
  lemma KnownOperatorKept(cat: seq<Operator>, op: string, kw: string, site: Option<string>, fileType: Option<string>)
    requires IsKnown(cat, op)
    ensures op + ":\"" + kw + "\"" <= Build(cat, op, kw, site, fileType)
    ensures Build(cat, op, kw, None, None) == op + ":\"" + kw + "\""
    ensures Build(cat, op, kw, site, fileType) == op + ":\"" + kw + "\"" + SiteTail(site) + FileTypeTail(fileType)
  {
    BuildShape(cat, op, kw, site, fileType);
    BuildShape(cat, op, kw, None, None);
  }

  /** An operator outside the catalog is dropped without error: the query opens
      with the bare quoted keyword, and does not depend on which unknown
      operator was given. */
  lemma UnknownOperatorDropped(cat: seq<Operator>, op: string, other: string, kw: string, site: Option<string>, fileType: Option<string>)
    requires !IsKnown(cat, op) && !IsKnown(cat, other)
    ensures Build(cat, op, kw, site, fileType) == "\"" + kw + "\"" + SiteTail(site) + FileTypeTail(fileType)
    ensures Build(cat, op, kw, None, None) == "\"" + kw + "\""
    ensures Build(cat, op, kw, site, fileType) == Build(cat, other, kw, site, fileType)
  {
    BuildShape(cat, op, kw, site, fileType);
    BuildShape(cat, op, kw, None, None);
    BuildShape(cat, other, kw, site, fileType);
  }

  /** The number of parts that open with `prefix`. */
  function CountClauses(parts: seq<string>, prefix: string): (n: nat)
  {
    if |parts| == 0 then 0
    else (if prefix <= parts[0] then 1 else 0) + CountClauses(parts[1..], prefix)
  }

  /** A `site:` clause follows the keyword clause exactly once when the site is
      truthy and never otherwise; the same holds for `filetype:`. When both
      are present, the site clause comes first. */
  lemma ClausesOnce(cat: seq<Operator>, op: string, kw: string, site: Option<string>, fileType: Option<string>)
    ensures var parts := Parts(cat, op, kw, site, fileType);
      && CountClauses(parts[1..], "site:") == (if Truthy(site) then 1 else 0)
      && CountClauses(parts[1..], "filetype:") == (if Truthy(fileType) then 1 else 0)
      && |parts| == 1 + CountClauses(parts[1..], "site:") + CountClauses(parts[1..], "filetype:")
    ensures Truthy(site) && Truthy(fileType) ==>
      Parts(cat, op, kw, site, fileType) == [KeywordClause(cat, op, kw), "site:" + site.value, "filetype:" + fileType.value]
  {
    var parts := Parts(cat, op, kw, site, fileType);
    var s := "site:";
    var f := "filetype:";
    assert !(s <= f) by { assert f[0] != s[0]; }
    assert forall t: string :: !(f <= s + t) by {
      forall t: string ensures !(f <= s + t) { assert (s + t)[0] != f[0]; }
    }
    assert forall t: string :: !(s <= f + t) by {
      forall t: string ensures !(s <= f + t) { assert (f + t)[0] != s[0]; }
    }
    if Truthy(site) && Truthy(fileType) {
      assert parts[1..] == [s + site.value, f + fileType.value];
      assert parts[1..][1..] == [f + fileType.value];
      assert CountClauses(parts[1..][1..], s) == 0;
      assert CountClauses(parts[1..][1..], f) == 1;
    } else if Truthy(site) {
      assert parts[1..] == [s + site.value];
    } else if Truthy(fileType) {
      assert parts[1..] == [f + fileType.value];
    } else {
      assert parts[1..] == [];
    }
  }

  /** Python truthiness: an empty site or file type adds nothing, exactly like
      an omitted one. */
  lemma EmptyMeansAbsent(cat: seq<Operator>, op: string, kw: string, site: Option<string>, fileType: Option<string>)
    ensures Build(cat, op, kw, Some(""), fileType) == Build(cat, op, kw, None, fileType)
    ensures Build(cat, op, kw, site, Some("")) == Build(cat, op, kw, site, None)
  {
  }

  /** With both options given, the query reads `first site:s filetype:t`. */
  lemma BothOptions(cat: seq<Operator>, op: string, kw: string, s: string, t: string)
    requires |s| > 0 && |t| > 0
    ensures Build(cat, op, kw, Some(s), Some(t)) == KeywordClause(cat, op, kw) + " site:" + s + " filetype:" + t
  {
    BuildShape(cat, op, kw, Some(s), Some(t));
  }

  /** Worked example `construir_dork("intitle", "admin login")`, for any
      catalog that knows `intitle`. */
  lemma ExampleKnown(cat: seq<Operator>)
    requires IsKnown(cat, "intitle")
    ensures Build(cat, "intitle", "admin login", None, None) == "intitle:\"admin login\""
  {
    KnownOperatorKept(cat, "intitle", "admin login", None, None);
  }

  /** Worked example `construir_dork("unknownop", "secret")`, for any catalog
      that does not know `unknownop`. */
  lemma ExampleUnknown(cat: seq<Operator>)
    requires !IsKnown(cat, "unknownop")
    ensures Build(cat, "unknownop", "secret", None, None) == "\"secret\""
  {
    UnknownOperatorDropped(cat, "unknownop", "unknownop", "secret", None, None);
  }

  /** The worked examples on the tool's own catalog. */
  lemma CatalogExamples()
    ensures Build(Dorks, "intitle", "admin login", None, None) == "intitle:\"admin login\""
    ensures Build(Dorks, "unknownop", "secret", None, None) == "\"secret\""
  {
    ExampleOperators();
    ExampleKnown(Dorks);
    ExampleUnknown(Dorks);
  }
}
