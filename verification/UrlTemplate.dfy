/**
 The `{model}` URL template of `crates/zwhisper-settings/src/config.rs`, and the
 downloader's second substitution in `crates/zwhisper-settings/src/download.rs`.

 `Count` and `ReplaceAll` are leftmost, non-overlapping matching and replacement
 over arbitrary strings, as the standard library's `matches` and `replace` do.
 */
module UrlTemplate {
  import opened Wrappers

  const MODEL_PLACEHOLDER := "{model}"
  const REQUIRED_SCHEME := "https://"

  datatype UrlError =
    | EmptyModelName
    | BadScheme
    | NoPlaceholder
    | RepeatedPlaceholder(found: nat)
    | StrayBrace

  function Count(s: string, token: string): nat
    requires token != ""
  {
    if s == "" then 0
    else if token <= s then 1 + Count(s[|token|..], token)
    else Count(s[1..], token)
  }

  function ReplaceAll(s: string, token: string, fill: string): string
    requires token != ""
  {
    if s == "" then ""
    else if token <= s then fill + ReplaceAll(s[|token|..], token, fill)
    else [s[0]] + ReplaceAll(s[1..], token, fill)
  }

  predicate BraceFree(s: string) {
    '{' !in s && '}' !in s
  }

  function ValidateBaseUrl(url: string): Result<(), UrlError> {
    if !(REQUIRED_SCHEME <= url) then Err(BadScheme)
    else
      var found := Count(url, MODEL_PLACEHOLDER);
      if found == 0 then Err(NoPlaceholder)
      else if found > 1 then Err(RepeatedPlaceholder(found))
      else if !BraceFree(ReplaceAll(url, MODEL_PLACEHOLDER, "")) then Err(StrayBrace)
      else Ok(())
  }

  function ResolveUrl(baseUrl: string, modelName: string): Result<string, UrlError> {
    if modelName == "" then Err(EmptyModelName)
    else
      match ValidateBaseUrl(baseUrl)
      case Err(e) => Err(e)
      case Ok(_) => Ok(ReplaceAll(baseUrl, MODEL_PLACEHOLDER, modelName))
  }

  /** The downloader's own, weaker guard. `contains` is a positive match count. */
  function SubstituteModelToken(baseUrl: string, modelName: string): Result<string, UrlError> {
    if Count(baseUrl, MODEL_PLACEHOLDER) == 0 then Err(NoPlaceholder)
    else if !(REQUIRED_SCHEME <= baseUrl) then Err(BadScheme)
    else Ok(ReplaceAll(baseUrl, MODEL_PLACEHOLDER, modelName))
  }

  /** `url` is a template with exactly one hole: `p`, the placeholder, `s`. */
  ghost predicate Splits(url: string, p: string, s: string) {
    url == p + "{model}" + s && BraceFree(p) && BraceFree(s)
  }

  predicate HoleAt(url: string, i: int) {
    0 <= i <= |url| && "{model}" <= url[i..]
  }

  // ---- Matching over arbitrary strings -------------------------------------

  // Text without the token's first character is neither counted nor changed.
  lemma {:induction false} NoMatchIn(s: string, token: string, fill: string)
    requires token != "" && token[0] !in s
    ensures Count(s, token) == 0 && ReplaceAll(s, token, fill) == s
  {
    if s != "" {
      assert !(token <= s);
      NoMatchIn(s[1..], token, fill);
    }
  }

  // A prefix without the token's first character is skipped over unchanged.
  lemma {:induction false} SkipPrefix(p: string, rest: string, token: string, fill: string)
    requires token != "" && token[0] !in p
    ensures Count(p + rest, token) == Count(rest, token)
    ensures ReplaceAll(p + rest, token, fill) == p + ReplaceAll(rest, token, fill)
  {
    if p == "" {
      assert p + rest == rest;
      assert p + ReplaceAll(rest, token, fill) == ReplaceAll(rest, token, fill);
    } else {
      assert (p + rest)[1..] == p[1..] + rest;
      SkipPrefix(p[1..], rest, token, fill);
      assert [p[0]] + (p[1..] + ReplaceAll(rest, token, fill)) == p + ReplaceAll(rest, token, fill);
    }
  }

  lemma MatchAtFront(rest: string, token: string, fill: string)
    requires token != ""
    ensures Count(token + rest, token) == 1 + Count(rest, token)
    ensures ReplaceAll(token + rest, token, fill) == fill + ReplaceAll(rest, token, fill)
  {
    assert (token + rest)[|token|..] == rest;
  }

  // One match, and nothing but brace-free text once it is removed, leaves only one shape.
  lemma {:induction false} OneMatchSplits(url: string) returns (p: string, s: string)
    requires Count(url, MODEL_PLACEHOLDER) == 1
    requires BraceFree(ReplaceAll(url, MODEL_PLACEHOLDER, ""))
    ensures Splits(url, p, s)
  {
    if MODEL_PLACEHOLDER <= url {
      p, s := "", url[|MODEL_PLACEHOLDER|..];
      assert url == MODEL_PLACEHOLDER + s;
      UncountedIsUnchanged(s, MODEL_PLACEHOLDER, "");
      assert ReplaceAll(url, MODEL_PLACEHOLDER, "") == "" + ReplaceAll(s, MODEL_PLACEHOLDER, "");
    } else {
      var tail := ReplaceAll(url[1..], MODEL_PLACEHOLDER, "");
      assert ReplaceAll(url, MODEL_PLACEHOLDER, "") == [url[0]] + tail;
      assert BraceFree(tail) && BraceFree([url[0]]) by {
        assert ([url[0]] + tail)[1..] == tail && ([url[0]] + tail)[0] == url[0];
      }
      var p';
      p', s := OneMatchSplits(url[1..]);
      p := [url[0]] + p';
      assert url == [url[0]] + url[1..];
    }
  }

  lemma {:induction false} UncountedIsUnchanged(s: string, token: string, fill: string)
    requires token != "" && Count(s, token) == 0
    ensures ReplaceAll(s, token, fill) == s
  {
    if s != "" {
      UncountedIsUnchanged(s[1..], token, fill);
    }
  }

  // ---- What validation means -----------------------------------------------

  lemma SplitIsValid(url: string, p: string, s: string, name: string)
    requires Splits(url, p, s)
    ensures Count(url, MODEL_PLACEHOLDER) == 1
    ensures ReplaceAll(url, MODEL_PLACEHOLDER, name) == p + name + s
  {
    assert url == p + (MODEL_PLACEHOLDER + s);
    SkipPrefix(p, MODEL_PLACEHOLDER + s, MODEL_PLACEHOLDER, name);
    MatchAtFront(s, MODEL_PLACEHOLDER, name);
    NoMatchIn(s, MODEL_PLACEHOLDER, name);
    assert p + (name + s) == p + name + s;
  }

  // A base URL is accepted exactly when it has the scheme and one hole in brace-free text.
  lemma ValidExactly(url: string)
    ensures ValidateBaseUrl(url).Ok?
       <==> "https://" <= url && exists p, s :: Splits(url, p, s)
  {
    if ValidateBaseUrl(url).Ok? {
      var p, s := OneMatchSplits(url);
      assert Splits(url, p, s);
    }
    if REQUIRED_SCHEME <= url && exists p, s :: Splits(url, p, s) {
      var p, s :| Splits(url, p, s);
      SplitIsValid(url, p, s, "");
      assert p + "" + s == p + s;
    }
  }

  lemma SplitIsUnique(url: string, p: string, s: string, p': string, s': string)
    requires Splits(url, p, s) && Splits(url, p', s')
    ensures p == p' && s == s'
  {
    assert url[|p|] == '{' && url[|p'|] == '{';
    assert |p| >= |p'| ==> p'== url[..|p'|];
    assert |p| == |p'|;
    assert p == url[..|p|] && p' == url[..|p|];
    assert s == url[|p| + |MODEL_PLACEHOLDER|..] && s' == url[|p| + |MODEL_PLACEHOLDER|..];
  }

  // Resolution fills the hole and nothing else, keeps the scheme, and the downloader agrees.
  lemma ResolveFillsTheHole(url: string, p: string, s: string, name: string)
    requires "https://" <= url && Splits(url, p, s) && name != ""
    ensures ResolveUrl(url, name) == Ok(p + name + s)
    ensures "https://" <= p + name + s
    ensures SubstituteModelToken(url, name) == ResolveUrl(url, name)
  {
    SplitIsValid(url, p, s, name);
    ValidExactly(url);
    assert url[|p|] == '{' && '{' !in REQUIRED_SCHEME;
    assert |p| >= |REQUIRED_SCHEME|;
    assert p == url[..|p|];
  }

  lemma ResolveIsInjective(url: string, name: string, name': string)
    requires ResolveUrl(url, name).Ok? && ResolveUrl(url, name') == ResolveUrl(url, name)
    ensures name == name'
  {
    ValidExactly(url);
    var p, s :| Splits(url, p, s);
    ResolveFillsTheHole(url, p, s, name);
    ResolveFillsTheHole(url, p, s, name');
    var r := p + name + s;
    assert |name| == |name'|;
    assert name == r[|p|..|p| + |name|] && name' == (p + name' + s)[|p|..|p| + |name'|];
  }

  // Leftmost matching misses nothing: no match is counted exactly when the token occurs nowhere.
  lemma {:induction false} NoCountMeansAbsent(s: string, token: string)
    requires token != ""
    ensures Count(s, token) == 0 <==> forall i :: 0 <= i <= |s| ==> !(token <= s[i..])
  {
    assert s[0..] == s;
    if s != "" && !(token <= s) {
      NoCountMeansAbsent(s[1..], token);
      forall i | 0 <= i <= |s[1..]|
        ensures s[1..][i..] == s[i + 1..]
      {
      }
      assert forall i :: 0 < i <= |s| ==> s[i..] == s[1..][i - 1..];
    }
  }

  // The downloader's own guard accepts exactly the URLs that have the scheme and some placeholder;
  // on those that also validate it gives the same URL.
  lemma SubstituteAccepts(url: string, name: string)
    ensures SubstituteModelToken(url, name).Ok?
       <==> "https://" <= url && exists i :: HoleAt(url, i)
    ensures ResolveUrl(url, name).Ok? ==> SubstituteModelToken(url, name) == ResolveUrl(url, name)
  {
    NoCountMeansAbsent(url, MODEL_PLACEHOLDER);
    assert forall i :: HoleAt(url, i) <==> 0 <= i <= |url| && MODEL_PLACEHOLDER <= url[i..];
  }

  /** `pieces`, with `fill` between any two of them. */
  function Join(pieces: seq<string>, fill: string): string {
    if pieces == [] then "" else if |pieces| == 1 then pieces[0] else pieces[0] + fill + Join(pieces[1..], fill)
  }

  lemma {:induction false} JoinIsFilled(pieces: seq<string>, name: string)
    requires pieces != [] && forall k | 0 <= k < |pieces| :: '{' !in pieces[k]
    ensures ReplaceAll(Join(pieces, MODEL_PLACEHOLDER), MODEL_PLACEHOLDER, name) == Join(pieces, name)
    ensures Count(Join(pieces, MODEL_PLACEHOLDER), MODEL_PLACEHOLDER) == |pieces| - 1
  {
    var p := pieces[0];
    if |pieces| == 1 {
      NoMatchIn(p, MODEL_PLACEHOLDER, name);
    } else {
      var rest := Join(pieces[1..], MODEL_PLACEHOLDER);
      JoinIsFilled(pieces[1..], name);
      assert Join(pieces, MODEL_PLACEHOLDER) == p + (MODEL_PLACEHOLDER + rest);
      SkipPrefix(p, MODEL_PLACEHOLDER + rest, MODEL_PLACEHOLDER, name);
      MatchAtFront(rest, MODEL_PLACEHOLDER, name);
      assert p + (name + Join(pieces[1..], name)) == p + name + Join(pieces[1..], name);
    }
  }

  // The downloader fills every hole, however many there are, and says what is wrong otherwise.
  lemma SubstituteFillsEveryHole(url: string, pieces: seq<string>, name: string)
    requires pieces != [] && (forall k | 0 <= k < |pieces| :: '{' !in pieces[k]) && url == Join(pieces, "{model}")
    ensures SubstituteModelToken(url, name)
         == if |pieces| == 1 then Err(NoPlaceholder)
            else if !("https://" <= url) then Err(BadScheme)
            else Ok(Join(pieces, name))
  {
    JoinIsFilled(pieces, name);
  }

  lemma HolesShift(url: string, n: nat)
    requires n <= |url|
    ensures forall i :: 0 <= i ==> (HoleAt(url[n..], i) <==> HoleAt(url, i + n))
  {
    forall i | 0 <= i <= |url| - n
      ensures url[n..][i..] == url[i + n..]
    {
    }
  }

  // Holes do not overlap: after one, the next is behind it.
  lemma NextHoleIsBehind(url: string, j: int)
    requires MODEL_PLACEHOLDER <= url && HoleAt(url, j) && j > 0
    ensures j >= |MODEL_PLACEHOLDER|
  {
    assert url[j..][0] == '{' && url[j] == '{';
    assert forall k | 0 < k < |MODEL_PLACEHOLDER| :: url[k] == MODEL_PLACEHOLDER[k] && MODEL_PLACEHOLDER[k] != '{';
  }

  lemma HolesFromOne(url: string)
    requires MODEL_PLACEHOLDER <= url
    ensures HoleAt(url, 0)
    ensures (exists i, j :: i < j && HoleAt(url, i) && HoleAt(url, j))
       <==> exists k :: HoleAt(url[|MODEL_PLACEHOLDER|..], k)
  {
    var n := |MODEL_PLACEHOLDER|;
    assert url[0..] == url && HoleAt(url, 0);
    HolesShift(url, n);
    if k :| HoleAt(url[n..], k) {
      assert HoleAt(url, k + n);
    }
    if i, j :| i < j && HoleAt(url, i) && HoleAt(url, j) {
      NextHoleIsBehind(url, j);
      assert HoleAt(url[n..], j - n);
    }
  }

  lemma HoleOneOn(url: string, i: int)
    requires url != "" && !(MODEL_PLACEHOLDER <= url)
    ensures HoleAt(url[1..], i) ==> HoleAt(url, i + 1)
    ensures HoleAt(url, i) ==> HoleAt(url[1..], i - 1)
  {
    assert url[0..] == url;
    if 0 <= i < |url| {
      assert url[1..][i..] == url[i + 1..];
    }
    if 0 < i <= |url| {
      assert url[1..][i - 1..] == url[i..];
    }
  }

  lemma HolesFromText(url: string)
    requires url != "" && !(MODEL_PLACEHOLDER <= url)
    ensures (exists i :: HoleAt(url, i)) <==> exists i :: HoleAt(url[1..], i)
    ensures (exists i, j :: i < j && HoleAt(url, i) && HoleAt(url, j))
       <==> exists i, j :: i < j && HoleAt(url[1..], i) && HoleAt(url[1..], j)
  {
    hide HoleAt;
    if i :| HoleAt(url, i) {
      HoleOneOn(url, i);
    }
    if i :| HoleAt(url[1..], i) {
      HoleOneOn(url, i);
    }
    if i, j :| i < j && HoleAt(url[1..], i) && HoleAt(url[1..], j) {
      HoleOneOn(url, i);
      HoleOneOn(url, j);
    }
    if i, j :| i < j && HoleAt(url, i) && HoleAt(url, j) {
      HoleOneOn(url, i);
      HoleOneOn(url, j);
    }
  }

  lemma {:induction false} CountedHoles(url: string)
    ensures Count(url, MODEL_PLACEHOLDER) > 0 <==> exists i :: HoleAt(url, i)
    ensures Count(url, MODEL_PLACEHOLDER) > 1 <==> exists i, j :: i < j && HoleAt(url, i) && HoleAt(url, j)
    decreases |url|
  {
    if url == "" {
    } else if MODEL_PLACEHOLDER <= url {
      HolesFromOne(url);
      hide HoleAt;
      CountedHoles(url[|MODEL_PLACEHOLDER|..]);
    } else {
      HolesFromText(url);
      hide HoleAt;
      CountedHoles(url[1..]);
    }
  }

  // Which of the five errors a refused template gets: the first of these that applies.
  lemma RefusedExactly(url: string, name: string)
    ensures name == "" ==> ResolveUrl(url, name) == Err(EmptyModelName)
    ensures name != "" && !("https://" <= url) ==> ResolveUrl(url, name) == Err(BadScheme)
    ensures name != "" && "https://" <= url && (forall i :: !HoleAt(url, i)) ==>
              ResolveUrl(url, name) == Err(NoPlaceholder)
    ensures name != "" && "https://" <= url ==>
              ((exists i, j :: i < j && HoleAt(url, i) && HoleAt(url, j)) <==>
                 ResolveUrl(url, name).Err? && ResolveUrl(url, name).error.RepeatedPlaceholder?)
    ensures name != "" && "https://" <= url && (exists i :: HoleAt(url, i))
            && (forall i, j | i < j && HoleAt(url, i) :: !HoleAt(url, j)) ==>
              (ResolveUrl(url, name) == Err(StrayBrace) <==> forall p, s :: !Splits(url, p, s))
  {
    hide Count, ReplaceAll, HoleAt, Splits;
    CountedHoles(url);
    ValidExactly(url);
  }
}
