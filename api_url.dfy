/**
 * The command URL the client posts to (BuildApiUrl in FastEInvoiceClient.cs): the API
 * path, then the four query parameters action, method, clientCode and proxyCode, each
 * written `name=value` with the value escaped by Uri.EscapeDataString and the pairs
 * joined with '&'. A reader of such a URL is given too, to state that the URL carries
 * exactly the parameters it was built from.
 */
module ApiUrl {
  import opened Wrappers
  import opened UriEscape
  import ApiConstants

  /**
   * The query parameters, in the order the dictionary initialiser adds them. A Dictionary
   * that is only ever added to enumerates in insertion order; the model takes that order
   * as given.
   */
  function QueryParams(methodCode: string, clientCode: string, proxyCode: string): (ps: seq<(string, string)>)
    ensures |ps| == 4
    ensures ps[0] == (ApiConstants.ActionParam, ApiConstants.Execute)
    ensures ps[1] == (ApiConstants.MethodParam, methodCode)
    ensures ps[2] == (ApiConstants.ClientCodeParam, clientCode)
    ensures ps[3] == (ApiConstants.ProxyCodeParam, proxyCode)
  {
    [(ApiConstants.ActionParam, ApiConstants.Execute), (ApiConstants.MethodParam, methodCode),
     (ApiConstants.ClientCodeParam, clientCode), (ApiConstants.ProxyCodeParam, proxyCode)]
  }

  /** `{key}={Uri.EscapeDataString(value)}`. */
  function Pair(p: (string, string)): string {
    p.0 + "=" + EscapeDataString(p.1)
  }

  /** The rendered pairs, in order. */
  function PairTexts(ps: seq<(string, string)>): (ts: seq<string>)
    ensures |ts| == |ps|
  {
    if ps == [] then [] else [Pair(ps[0])] + PairTexts(ps[1..])
  }

  /** string.Join(sep, parts). */
  function Join(sep: char, parts: seq<string>): string {
    if parts == [] then ""
    else if |parts| == 1 then parts[0]
    else parts[0] + [sep] + Join(sep, parts[1..])
  }

  /** BuildApiUrl: `{ApiPath}?{query}`, the query being the joined pairs. */
  function BuildApiUrl(methodCode: string, clientCode: string, proxyCode: string): (url: string)
    ensures |url| > |ApiConstants.ApiPath| && url[..|ApiConstants.ApiPath| + 1] == ApiConstants.ApiPath + "?"
  {
    ApiConstants.ApiPath + "?" + Join('&', PairTexts(QueryParams(methodCode, clientCode, proxyCode)))
  }

  lemma Join4(sep: char, a: string, b: string, c: string, d: string)
    ensures Join(sep, [a, b, c, d]) == a + [sep] + b + [sep] + c + [sep] + d
  {
    assert [a, b, c, d][1..] == [b, c, d];
    assert [b, c, d][1..] == [c, d];
    assert [c, d][1..] == [d];
    var cd := c + [sep] + d;
    assert Join(sep, [c, d]) == cd;
    var bcd := b + [sep] + cd;
    assert Join(sep, [b, c, d]) == bcd;
    assert bcd == b + [sep] + c + [sep] + d;
    assert a + [sep] + bcd == a + [sep] + b + [sep] + c + [sep] + d;
  }

  lemma PairTexts4(ps: seq<(string, string)>)
    requires |ps| == 4
    ensures PairTexts(ps) == [Pair(ps[0]), Pair(ps[1]), Pair(ps[2]), Pair(ps[3])]
  {
    var p1 := ps[1..];
    var p2 := p1[1..];
    var p3 := p2[1..];
    assert p3[1..] == [];
    assert PairTexts(p3) == [Pair(ps[3])];
    assert PairTexts(p2) == [Pair(ps[2]), Pair(ps[3])];
    assert PairTexts(p1) == [Pair(ps[1]), Pair(ps[2]), Pair(ps[3])];
  }

  /** The URL spelled out: for a method code of digits, the method is written as it is. */
  lemma BuildApiUrlShape(methodCode: string, clientCode: string, proxyCode: string)
    requires forall i | 0 <= i < |methodCode| :: IsUnreserved(methodCode[i])
    ensures BuildApiUrl(methodCode, clientCode, proxyCode) ==
      ApiConstants.ApiPath + "?"
      + ("action=0"
         + "&" + ("method=" + methodCode)
         + "&" + ("clientCode=" + EscapeDataString(clientCode))
         + "&" + ("proxyCode=" + EscapeDataString(proxyCode)))
  {
    EscapeUnreserved(methodCode);
    EscapeUnreserved(ApiConstants.Execute);
    var ps := QueryParams(methodCode, clientCode, proxyCode);
    var a, b, c, d := Pair(ps[0]), Pair(ps[1]), Pair(ps[2]), Pair(ps[3]);
    assert a == "action=0";
    assert b == "method=" + methodCode;
    assert c == "clientCode=" + EscapeDataString(clientCode);
    assert d == "proxyCode=" + EscapeDataString(proxyCode);
    PairTexts4(ps);
    Join4('&', a, b, c, d);
  }

  // Reading a URL back.

  /** string.Split(sep): the pieces between separators, empty ones included. */
  function SplitOn(s: string, sep: char): (parts: seq<string>)
    ensures |parts| >= 1
    decreases |s|
  {
    if s == [] then [""]
    else
      var rest := SplitOn(s[1..], sep);
      if s[0] == sep then [""] + rest else [[s[0]] + rest[0]] + rest[1..]
  }

  /** One `name=value` pair, the value unescaped. */
  function ParsePair(t: string): Option<(string, string)> {
    var kv := SplitOn(t, '=');
    if |kv| != 2 then None
    else
      var value :- UnescapeDataString(kv[1]);
      Some((kv[0], value))
  }

  function ParsePairs(parts: seq<string>): Option<seq<(string, string)>> {
    if parts == [] then Some([])
    else
      var p :- ParsePair(parts[0]);
      var rest :- ParsePairs(parts[1..]);
      Some([p] + rest)
  }

  /** A URL read as its path and its query parameters, or None if it is not of that form. */
  function ParseUrl(url: string): Option<(string, seq<(string, string)>)> {
    var halves := SplitOn(url, '?');
    if |halves| != 2 then None
    else
      var ps :- ParsePairs(SplitOn(halves[1], '&'));
      Some((halves[0], ps))
  }

  /** A text that holds none of the characters that delimit a query. */
  predicate Plain(s: string) {
    '?' !in s && '&' !in s && '=' !in s
  }

  lemma {:induction false} SplitPlain(a: string, sep: char)
    requires sep !in a
    ensures SplitOn(a, sep) == [a]
    decreases |a|
  {
    if a != [] {
      SplitPlain(a[1..], sep);
      assert [a[0]] + a[1..] == a;
    }
  }

  lemma {:induction false} SplitFirst(a: string, sep: char, b: string)
    requires sep !in a
    ensures SplitOn(a + [sep] + b, sep) == [a] + SplitOn(b, sep)
    decreases |a|
  {
    var s := a + [sep] + b;
    if a == [] {
      assert s[1..] == b;
    } else {
      assert s[1..] == a[1..] + [sep] + b;
      SplitFirst(a[1..], sep, b);
      assert [a[0]] + a[1..] == a;
    }
  }

  /** An escaped value holds only unreserved characters and '%', so it is plain. */
  lemma EscapedIsPlain(v: string)
    ensures Plain(EscapeDataString(v))
  {
    var t := EscapeDataString(v);
    forall i | 0 <= i < |t| ensures t[i] != '?' && t[i] != '&' && t[i] != '=' { }
  }

  lemma ParsePairRoundTrip(p: (string, string))
    requires Plain(p.0)
    ensures ParsePair(Pair(p)) == Some(p)
  {
    var e := EscapeDataString(p.1);
    EscapedIsPlain(p.1);
    assert Pair(p) == p.0 + ['='] + e;
    SplitFirst(p.0, '=', e);
    SplitPlain(e, '=');
    EscapeRoundTrip(p.1);
  }

  lemma {:induction false} ParsePairsRoundTrip(ps: seq<(string, string)>)
    requires forall i | 0 <= i < |ps| :: Plain(ps[i].0)
    ensures ParsePairs(PairTexts(ps)) == Some(ps)
    decreases |ps|
  {
    if ps != [] {
      ParsePairRoundTrip(ps[0]);
      ParsePairsRoundTrip(ps[1..]);
      assert [ps[0]] + ps[1..] == ps;
    }
  }

  /** Joining pieces that hold no separator and splitting again gives the pieces back. */
  lemma {:induction false} SplitJoin(sep: char, parts: seq<string>)
    requires parts != []
    requires forall i | 0 <= i < |parts| :: sep !in parts[i]
    ensures SplitOn(Join(sep, parts), sep) == parts
    decreases |parts|
  {
    if |parts| == 1 {
      SplitPlain(parts[0], sep);
    } else {
      SplitJoin(sep, parts[1..]);
      SplitFirst(parts[0], sep, Join(sep, parts[1..]));
    }
  }

  /** A join of texts without a character holds none of it, if the separator is another. */
  lemma {:induction false} JoinLacks(sep: char, c: char, parts: seq<string>)
    requires c != sep
    requires forall i | 0 <= i < |parts| :: c !in parts[i]
    ensures c !in Join(sep, parts)
    decreases |parts|
  {
    if |parts| > 1 {
      JoinLacks(sep, c, parts[1..]);
    }
  }

  /** The rendered pairs of plain names hold neither '&' nor '?'. */
  lemma {:induction false} PairTextsPlain(ps: seq<(string, string)>)
    requires forall i | 0 <= i < |ps| :: Plain(ps[i].0)
    ensures forall i | 0 <= i < |ps| :: '&' !in PairTexts(ps)[i] && '?' !in PairTexts(ps)[i]
    decreases |ps|
  {
    if ps != [] {
      PairTextsPlain(ps[1..]);
      EscapedIsPlain(ps[0].1);
      var t := PairTexts(ps);
      assert t[0] == ps[0].0 + "=" + EscapeDataString(ps[0].1);
      forall i | 1 <= i < |ps| ensures t[i] == PairTexts(ps[1..])[i - 1] { }
    }
  }

  /**
   * The URL carries exactly what it was built from: read back, it is the API path and
   * the four parameters, in order, with their values as given.
   */
  lemma UrlRoundTrip(methodCode: string, clientCode: string, proxyCode: string)
    ensures ParseUrl(BuildApiUrl(methodCode, clientCode, proxyCode))
      == Some((ApiConstants.ApiPath, QueryParams(methodCode, clientCode, proxyCode)))
  {
    var ps := QueryParams(methodCode, clientCode, proxyCode);
    assert forall i | 0 <= i < |ps| :: Plain(ps[i].0);
    var ts := PairTexts(ps);
    PairTextsPlain(ps);
    var q := Join('&', ts);
    JoinLacks('&', '?', ts);
    SplitPlain(q, '?');
    assert '?' !in ApiConstants.ApiPath;
    SplitFirst(ApiConstants.ApiPath, '?', q);
    assert BuildApiUrl(methodCode, clientCode, proxyCode) == ApiConstants.ApiPath + ['?'] + q;
    SplitJoin('&', ts);
    ParsePairsRoundTrip(ps);
  }

  /** Different parameters give different URLs. */
  lemma BuildApiUrlInjective(m: string, c: string, p: string, m': string, c': string, p': string)
    ensures BuildApiUrl(m, c, p) == BuildApiUrl(m', c', p') ==> m == m' && c == c' && p == p'
  {
    UrlRoundTrip(m, c, p);
    UrlRoundTrip(m', c', p');
  }
}
