/**
 * The request parameters the handler reads before any fetch: the sheet URL, which must match
 * the character-sheet page pattern, the palette mode flag and the roll-command mode.
 */
module Request {
  import opened Wrappers
  import opened JsNumber

  /** The raw query-string values; `None` when a parameter is absent. */
  datatype Query = Query(url: Option<string>, simplePalette: Option<string>, rollCommand: Option<string>)

  /** Computed-value palette mode is on only for the literal value `true`. */
  function SimplePalette(q: Query): (on: bool)
    ensures on <==> q.simplePalette == Some("true")
  {
    match q.simplePalette
    case Some(v) => v == "true"
    case None => false
  }

  /** The roll-command mode; a missing parameter counts as the empty string. */
  function RollCommand(q: Query): (mode: string)
    ensures q.rollCommand == None ==> mode == ""
    ensures q.rollCommand.Some? ==> mode == q.rollCommand.value
  {
    q.rollCommand.GetOr("")
  }

  const SheetUrlPrefix: string := "https://dndjp.sakura.ne.jp/OUTPUT.php?ID="

  /** A sheet URL: the fixed page address followed by one or more ASCII digits and nothing else. */
  predicate IsSheetUrl(u: string) {
    |u| > |SheetUrlPrefix| && u[..|SheetUrlPrefix|] == SheetUrlPrefix && AllDigits(u[|SheetUrlPrefix|..])
  }

  /** One item of a regular expression anchored at both ends: a literal character, or `\d+`. */
  datatype PatternItem = Literal(c: char) | OneOrMoreDigits

  function LiteralItems(s: string): seq<PatternItem> {
    seq(|s|, i requires 0 <= i < |s| => Literal(s[i]))
  }

  /** `/^https:\/\/dndjp\.sakura\.ne\.jp\/OUTPUT\.php\?ID=\d+$/`. */
  function SheetUrlPattern(): seq<PatternItem> {
    LiteralItems(SheetUrlPrefix) + [OneOrMoreDigits]
  }

  /** `pattern.test(u)` for a pattern anchored with `^` and `$`, trying every split of a `\d+` run. */
  function Matches(p: seq<PatternItem>, u: string): bool
    decreases |p|, |u|
  {
    if p == [] then u == []
    else match p[0]
      case Literal(c) => u != [] && u[0] == c && Matches(p[1..], u[1..])
      case OneOrMoreDigits => u != [] && IsDigit(u[0]) && (Matches(p[1..], u[1..]) || Matches(p, u[1..]))
  }

  /** A trailing `\d+$` matches exactly the non-empty digit strings. */
  lemma {:induction false} DigitsMatch(u: string)
    ensures Matches([OneOrMoreDigits], u) <==> |u| >= 1 && AllDigits(u)
    decreases |u|
  {
    if |u| >= 1 {
      DigitsMatch(u[1..]);
      assert [OneOrMoreDigits][1..] == [];
      if |u| >= 2 && IsDigit(u[0]) && AllDigits(u[1..]) {
        assert forall i :: 1 <= i < |u| ==> u[i] == u[1..][i - 1];
      }
    }
  }

  /** A run of literal items matches exactly its own text at the front of the input. */
  lemma {:induction false} LiteralsMatch(s: string, rest: seq<PatternItem>, u: string)
    ensures Matches(LiteralItems(s) + rest, u)
        <==> |u| >= |s| && u[..|s|] == s && Matches(rest, u[|s|..])
  {
    var p := LiteralItems(s) + rest;
    if s == [] {
      assert p == rest;
    } else {
      assert p[0] == Literal(s[0]);
      assert p[1..] == LiteralItems(s[1..]) + rest;
      if u != [] {
        LiteralsMatch(s[1..], rest, u[1..]);
        if |u| >= |s| {
          assert u[1..][..|s| - 1] == u[1..|s|];
          assert u[1..][|s| - 1..] == u[|s|..];
          assert u[..|s|] == [u[0]] + u[1..|s|];
          assert s == [s[0]] + s[1..];
        }
      }
    }
  }

  /** The regular expression accepts exactly the sheet URLs. */
  lemma SheetUrlMatch(u: string)
    ensures Matches(SheetUrlPattern(), u) <==> IsSheetUrl(u)
  {
    LiteralsMatch(SheetUrlPrefix, [OneOrMoreDigits], u);
    if |u| >= |SheetUrlPrefix| {
      DigitsMatch(u[|SheetUrlPrefix|..]);
    }
  }

  datatype UrlError =
    | MissingUrl    // no `url` parameter, or an empty one
    | MalformedUrl  // a `url` that is not a sheet URL

  /** The check made before any fetch: only a sheet URL goes on; everything else is a client error. */
  function ValidateUrl(url: Option<string>): (r: Result<string, UrlError>)
    ensures r.Success? <==> url.Some? && IsSheetUrl(url.value)
    ensures r.Success? ==> r.value == url.value
    ensures r == Failure(MissingUrl) <==> url == None || url == Some("")
  {
    if url == None || url.value == "" then Failure(MissingUrl)
    else
      SheetUrlMatch(url.value);
      if Matches(SheetUrlPattern(), url.value) then Success(url.value) else Failure(MalformedUrl)
  }

  /** Any non-empty digit string after the page address is accepted as a sheet ID. */
  lemma SheetIdAccepted(id: string)
    requires |id| >= 1 && AllDigits(id)
    ensures ValidateUrl(Some(SheetUrlPrefix + id)) == Success(SheetUrlPrefix + id)
  {
    var u := SheetUrlPrefix + id;
    assert u[..|SheetUrlPrefix|] == SheetUrlPrefix && u[|SheetUrlPrefix|..] == id;
  }

  /** Other hosts, a missing ID, and anything after the ID are rejected. */
  lemma OtherUrlsRejected()
    ensures ValidateUrl(Some("http://dndjp.sakura.ne.jp/OUTPUT.php?ID=1")) == Failure(MalformedUrl)
    ensures ValidateUrl(Some(SheetUrlPrefix)) == Failure(MalformedUrl)
    ensures ValidateUrl(Some(SheetUrlPrefix + "12x")) == Failure(MalformedUrl)
  {
    var u := SheetUrlPrefix + "12x";
    assert u[|SheetUrlPrefix|..] == "12x" && !IsDigit(u[|u| - 1]);
    assert "http://dndjp.sakura.ne.jp/OUTPUT.php?ID=1"[4] != SheetUrlPrefix[4];
  }
}
