/** `FighterType`: the names of the fighter kinds a run can be configured with, parsed by
    `from_str` and printed by `Display`. */
module Types {
  import opened Prelude

  datatype FighterType = Pokemon | RPS | StreetFighter

  /** The characters with the Unicode White_Space property, which Rust's `str::trim` strips. */
  predicate IsWhitespace(c: char)
  {
    ('\t' <= c <= '\r') || c == ' ' || c == '\U{0085}' || c == '\U{00A0}' || c == '\U{1680}'
    || ('\U{2000}' <= c <= '\U{200A}') || c == '\U{2028}' || c == '\U{2029}' || c == '\U{202F}'
    || c == '\U{205F}' || c == '\U{3000}'
  }

  predicate AllWhitespace(s: string)
  {
    forall i :: 0 <= i < |s| ==> IsWhitespace(s[i])
  }

  /** `s` without its leading whitespace. */
  function TrimStart(s: string): (r: string)
    ensures |r| <= |s|
  {
    if |s| > 0 && IsWhitespace(s[0]) then TrimStart(s[1..]) else s
  }

  /** `s` without its trailing whitespace. */
  function TrimEnd(s: string): (r: string)
    ensures |r| <= |s|
  {
    if |s| > 0 && IsWhitespace(s[|s| - 1]) then TrimEnd(s[..|s| - 1]) else s
  }

  /** `TrimStart` keeps the longest suffix that does not start with whitespace: what it drops is all
      whitespace, and what it keeps is the rest of the string. */
  lemma {:induction false} TrimStartDrops(s: string)
    ensures var r := TrimStart(s);
            && r == s[|s| - |r|..]
            && AllWhitespace(s[..|s| - |r|])
            && (|r| > 0 ==> !IsWhitespace(r[0]))
  {
    if |s| > 0 && IsWhitespace(s[0]) {
      TrimStartDrops(s[1..]);
      var r := TrimStart(s[1..]);
      assert s[..|s| - |r|] == [s[0]] + s[1..][..|s[1..]| - |r|];
    }
  }

  /** `TrimEnd` keeps the longest prefix that does not end with whitespace. */
  lemma {:induction false} TrimEndDrops(s: string)
    ensures var r := TrimEnd(s);
            && r == s[..|r|]
            && AllWhitespace(s[|r|..])
            && (|r| > 0 ==> !IsWhitespace(r[|r| - 1]))
  {
    if |s| > 0 && IsWhitespace(s[|s| - 1]) {
      TrimEndDrops(s[..|s| - 1]);
      var r := TrimEnd(s[..|s| - 1]);
      assert s[|r|..] == s[..|s| - 1][|r|..] + [s[|s| - 1]];
    }
  }

  /** `str::trim`. */
  function Trim(s: string): (r: string)
    ensures |r| <= |s|
  {
    TrimEnd(TrimStart(s))
  }

  const UNKNOWN: string := "Unknown fighter type"

  /** `from_str`: the trimmed input against the three names. */
  function FromStr(s: string): (r: Result<FighterType, string>)
    ensures r.Err? ==> r.error == UNKNOWN
  {
    match Trim(s)
    case "pokemon" => Ok(Pokemon)
    case "rps" => Ok(RPS)
    case "streetfighter" => Ok(StreetFighter)
    case _ => Err(UNKNOWN)
  }

  /** `Display::fmt`: the lowercase name. */
  function Display(t: FighterType): (name: string)
    ensures |name| > 0 && !IsWhitespace(name[0]) && !IsWhitespace(name[|name| - 1])
  {
    match t
    case Pokemon => "pokemon"
    case RPS => "rps"
    case StreetFighter => "streetfighter"
  }

  /** A name that neither starts nor ends with whitespace is its own trimming. */
  lemma TrimFixed(s: string)
    requires |s| > 0 && !IsWhitespace(s[0]) && !IsWhitespace(s[|s| - 1])
    ensures Trim(s) == s
  {
  }

  /** Parsing accepts exactly the printed names, after trimming. */
  lemma FromStrIffDisplay(s: string, t: FighterType)
    ensures FromStr(s) == Ok(t) <==> Trim(s) == Display(t)
  {
  }

  /** Printing then parsing gives back the variant. */
  lemma RoundTrip(t: FighterType)
    ensures FromStr(Display(t)) == Ok(t)
  {
    TrimFixed(Display(t));
    FromStrIffDisplay(Display(t), t);
  }

  /** Distinct variants print distinct names. */
  lemma DisplayInjective(a: FighterType, b: FighterType)
    ensures Display(a) == Display(b) ==> a == b
  {
  }

  lemma {:induction false} TrimStartSkips(pad: string, s: string)
    requires AllWhitespace(pad) && |s| > 0 && !IsWhitespace(s[0])
    ensures TrimStart(pad + s) == TrimStart(s) == s
  {
    if |pad| > 0 {
      assert (pad + s)[1..] == pad[1..] + s;
      TrimStartSkips(pad[1..], s);
    } else {
      assert pad + s == s;
    }
  }

  lemma {:induction false} TrimEndSkips(s: string, pad: string)
    requires AllWhitespace(pad) && |s| > 0 && !IsWhitespace(s[|s| - 1])
    ensures TrimEnd(s + pad) == TrimEnd(s) == s
  {
    if |pad| > 0 {
      var n := |pad| - 1;
      assert (s + pad)[..|s + pad| - 1] == s + pad[..n];
      TrimEndSkips(s, pad[..n]);
    } else {
      assert s + pad == s;
    }
  }

  /** Whitespace around a name is ignored. */
  lemma PaddedNameParses(before: string, t: FighterType, after: string)
    requires AllWhitespace(before) && AllWhitespace(after)
    ensures FromStr(before + Display(t) + after) == Ok(t)
  {
    var name := Display(t);
    TrimStartSkips(before, name + after);
    assert before + name + after == before + (name + after);
    TrimEndSkips(name, after);
    FromStrIffDisplay(before + name + after, t);
  }

  /** `" rps\n"` parses as `RPS`, and a name that is not a fighter kind is refused. */
  lemma FromStrExamples()
    ensures FromStr(" rps\n") == Ok(RPS)
    ensures FromStr("pikachu") == Err(UNKNOWN)
  {
    PaddedNameParses(" ", RPS, "\n");
    assert " " + Display(RPS) + "\n" == " rps\n";
    TrimFixed("pikachu");
  }
}
