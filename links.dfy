/** Link extraction (`extractLinks`, a scan with the global regular
    expression `https?:\/\/[^\s<>"{}|\\^`[\]]+`, then `new Set`) and link
    validation (`validateLinks`) with the HEAD probe as a parameter. */
module Links {
  import opened Optional
  import opened Text
  import opened Seqs
  import opened QATypes

  /** A character the URL pattern accepts after the scheme. */
  predicate IsUrlChar(c: char) {
    !IsSpace(c) && c != '<' && c != '>' && c != '"' && c != '{' && c != '}'
    && c != '|' && c != '\\' && c != '^' && c != '`' && c != '[' && c != ']'
  }

  /** Length of `https://` or `http://` if `s[i..]` starts with it, else 0. */
  function SchemeLength(s: string, i: nat): (n: nat)
    requires i <= |s|
    ensures n == 0 || n == 7 || n == 8
    ensures n > 0 ==> i + n <= |s|
    ensures n == 7 ==> "http://" <= s[i..]
    ensures n == 8 ==> "https://" <= s[i..]
  {
    if "https://" <= s[i..] then 8 else if "http://" <= s[i..] then 7 else 0
  }

  /** The scheme length names the scheme the text starts with: `https://`
      gives 8, `http://` gives 7, neither gives 0. */
  lemma {:induction false} SchemeLengthExact(s: string, i: nat)
    requires i <= |s|
    ensures SchemeLength(s, i) == 8 <==> "https://" <= s[i..]
    ensures SchemeLength(s, i) == 7 <==> "http://" <= s[i..]
    ensures SchemeLength(s, i) == 0 <==> !("http://" <= s[i..]) && !("https://" <= s[i..])
  {
    if "https://" <= s[i..] {
      assert s[i + 4] == 's';
    }
  }

  /** Number of URL characters starting at `s[i]`. */
  function UrlRun(s: string, i: nat): (n: nat)
    requires i <= |s|
    ensures i + n <= |s|
    ensures forall k :: i <= k < i + n ==> IsUrlChar(s[k])
    ensures i + n < |s| ==> !IsUrlChar(s[i + n])
    decreases |s| - i
  {
    if i < |s| && IsUrlChar(s[i]) then 1 + UrlRun(s, i + 1) else 0
  }

  /** Length of the (greedy) match of the URL pattern at `s[i]`; 0 when the
      pattern does not match there. */
  function MatchAt(s: string, i: nat): (n: nat)
    requires i <= |s|
    ensures i + n <= |s|
  {
    var scheme := SchemeLength(s, i);
    if scheme > 0 && UrlRun(s, i + scheme) > 0 then scheme + UrlRun(s, i + scheme) else 0
  }

  /** `s.match(urlRegex)` restricted to `s[i..]`: every match, left to right,
      each search resuming after the previous match. */
  function MatchesFrom(s: string, i: nat): seq<string>
    requires i <= |s|
    decreases |s| - i
  {
    if i == |s| then []
    else
      var n := MatchAt(s, i);
      if n > 0 then [s[i..i + n]] + MatchesFrom(s, i + n) else MatchesFrom(s, i + 1)
  }

  /** A token the URL pattern matches in full: a scheme, then at least one
      URL character, and nothing but URL characters. */
  predicate IsUrlToken(u: string) {
    (("http://" <= u && |u| > 7) || ("https://" <= u && |u| > 8))
    && forall k :: 0 <= k < |u| ==> IsUrlChar(u[k])
  }

  /** `extractLinks`: the distinct URL tokens of `content`, in order of first
      appearance. */
  function ExtractLinks(content: string): (links: seq<string>)
    ensures NoDup(links)
    ensures content == [] ==> links == []
  {
    Dedup(MatchesFrom(content, 0))
  }

  /** A match is a URL token. */
  lemma MatchIsToken(s: string, i: nat)
    requires i < |s| && MatchAt(s, i) > 0
    ensures IsUrlToken(s[i..i + MatchAt(s, i)])
  {
    var n := MatchAt(s, i);
    var u := s[i..i + n];
    var scheme := SchemeLength(s, i);
    assert "http://" <= u || "https://" <= u by {
      assert s[i..][..scheme] == u[..scheme];
    }
    forall k | 0 <= k < |u| ensures IsUrlChar(u[k]) {
      if k >= scheme {
        assert u[k] == s[i + k];
      } else {
        assert u[k] == s[i..][k];
      }
    }
  }

  /** Every match is a URL token. */
  lemma {:induction false} MatchesAreTokens(s: string, i: nat)
    requires i <= |s|
    ensures forall m :: m in MatchesFrom(s, i) ==> IsUrlToken(m)
    decreases |s| - i
  {
    if i < |s| {
      var n := MatchAt(s, i);
      if n > 0 {
        MatchesAreTokens(s, i + n);
        MatchIsToken(s, i);
      } else {
        MatchesAreTokens(s, i + 1);
      }
    }
  }

  /** A match at `i` heads the matches from `i`. */
  lemma MatchesCons(s: string, i: nat)
    requires i < |s| && MatchAt(s, i) > 0
    ensures MatchesFrom(s, i) == [s[i..i + MatchAt(s, i)]] + MatchesFrom(s, i + MatchAt(s, i))
  {
  }

  /** Every match occurs in the text. */
  lemma {:induction false} MatchOccurs(s: string, i: nat, m: string)
    requires i <= |s| && m in MatchesFrom(s, i)
    ensures Contains(s, m)
    decreases |s| - i
  {
    var n := MatchAt(s, i);
    if n > 0 {
      var u := s[i..i + n];
      var rest := MatchesFrom(s, i + n);
      MatchesCons(s, i);
      assert m in [u] + rest;
      if m == u {
        ContainsAt(s, m, i);
      } else {
        assert m in rest;
        MatchOccurs(s, i + n, m);
      }
    } else {
      MatchOccurs(s, i + 1, m);
    }
  }

  /** Every extracted link begins with `http://` or `https://`, holds no white
      space and occurs in the text. */
  lemma ExtractedLinksAreTokens(content: string)
    ensures forall k :: 0 <= k < |ExtractLinks(content)| ==>
              IsUrlToken(ExtractLinks(content)[k]) && Contains(content, ExtractLinks(content)[k])
    ensures forall k :: 0 <= k < |ExtractLinks(content)| ==>
              "http" <= ExtractLinks(content)[k] && !HasChar(ExtractLinks(content)[k], ' ')
  {
    MatchesAreTokens(content, 0);
    var links := ExtractLinks(content);
    forall k | 0 <= k < |links|
      ensures IsUrlToken(links[k]) && Contains(content, links[k])
      ensures "http" <= links[k] && !HasChar(links[k], ' ')
    {
      assert links[k] in MatchesFrom(content, 0);
      MatchOccurs(content, 0, links[k]);
    }
  }

  /** A text with a link in it contains `http://` or `https://`. */
  lemma LinkImpliesScheme(content: string)
    requires ExtractLinks(content) != []
    ensures Contains(content, "http://") || Contains(content, "https://")
  {
    ExtractedLinksAreTokens(content);
    var u := ExtractLinks(content)[0];
    var i :| 0 <= i <= |content| - |u| && u <= content[i..];
    if "https://" <= u {
      assert "https://" <= content[i..];
    } else {
      assert "http://" <= content[i..];
    }
  }

  /** Extraction lists every match the scan finds, in order of first
      appearance. */
  lemma ExtractLinksOrder(content: string)
    ensures forall k :: 0 <= k < |MatchesFrom(content, 0)| ==> MatchesFrom(content, 0)[k] in ExtractLinks(content)
    ensures forall i, j :: 0 <= i < j < |ExtractLinks(content)| ==>
              FirstIndex(MatchesFrom(content, 0), ExtractLinks(content)[i])
              < FirstIndex(MatchesFrom(content, 0), ExtractLinks(content)[j])
  {
    DedupOrder(MatchesFrom(content, 0));
  }

  /** What the HEAD probe did: answered with a status (axios resolves below
      400 and throws an error that carries the response from 400 on), threw
      an `Error` without a response, or threw something that is not an
      `Error`. */
  datatype Probe =
    | Responded(status: int, statusText: string, responseUrl: Option<string>)
    | Failed(code: string, message: string)
    | ThrewNonError

  /** The classified result for one URL. */
  function ValidateOne(url: string, p: Probe): (r: LinkResult)
    ensures r.url == url
    ensures r.status == Valid <==> p.Responded? && p.status < 400
    ensures r.status == Invalid <==> p.Responded? && p.status >= 400
    ensures r.status == Unreachable <==> !p.Responded?
    ensures r.status != Valid ==> r.error.Some? && r.redirectedTo.None?
    ensures r.status == Invalid ==>
              r.statusCode == Some(p.status)
              && r.error == Some("HTTP " + IntToString(p.status) + ": " + p.statusText)
    ensures r.status == Valid ==> r.statusCode == Some(p.status) && r.error.None?
    ensures r.redirectedTo.Some? ==> p.Responded? && p.responseUrl == r.redirectedTo && r.redirectedTo != Some(url)
    ensures p.Failed? && p.code == "ENOTFOUND" ==> r.error == Some("Domain not found")
    ensures p.Failed? && p.code == "ETIMEDOUT" ==> r.error == Some("Request timeout")
    ensures p.Failed? && p.code != "ENOTFOUND" && p.code != "ETIMEDOUT" ==> r.error == Some(p.message)
    ensures p.ThrewNonError? ==> r.error == Some("Unknown error occurred")
  {
    match p
    case Responded(status, text, final) =>
      if status < 400 then
        LinkResult(url, Valid, Some(status), None,
                   if final.Some? && final.value != url then final else None)
      else
        LinkResult(url, Invalid, Some(status), Some("HTTP " + IntToString(status) + ": " + text), None)
    case Failed(code, message) =>
      LinkResult(url, Unreachable, None,
                 Some(if code == "ENOTFOUND" then "Domain not found"
                      else if code == "ETIMEDOUT" then "Request timeout"
                      else message), None)
    case ThrewNonError =>
      LinkResult(url, Unreachable, None, Some("Unknown error occurred"), None)
  }

  /** `validateLinks`: probes each URL in turn and never fails; one result
      per URL, in input order. */
  method ValidateLinks(urls: seq<string>, probe: string -> Probe) returns (results: seq<LinkResult>)
    ensures |results| == |urls|
    ensures forall i :: 0 <= i < |urls| ==> results[i] == ValidateOne(urls[i], probe(urls[i]))
    ensures forall i :: 0 <= i < |urls| ==> results[i].url == urls[i]
  {
    results := [];
    for i := 0 to |urls|
      invariant |results| == i
      invariant forall k :: 0 <= k < i ==> results[k] == ValidateOne(urls[k], probe(urls[k]))
    {
      results := results + [ValidateOne(urls[i], probe(urls[i]))];
    }
  }
}
