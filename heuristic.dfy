/** The rule-based advisory check shown to the operator for an unseen URL
    (`preliminary_heuristic_check`). */
module Heuristic {
  import opened Text

  /** The parts of `urlparse(url)` the core reads. `netloc` keeps credentials
      and port as written; `hostname` is `parsed.hostname or ''`, which has
      them stripped and is lower-cased. */
  datatype Url = Url(scheme: string, netloc: string, hostname: string)

  const LikelySafeText: string := "Likely Safe \U{1F510}"
  const LikelyMaliciousText: string := "\U{26A0}\U{FE0F} Likely Malicious based on heuristics"

  const TunnelingDomains: seq<string> :=
    ["is.gd", "bit.ly", "tinyurl.com", "ngrok.io", "loclx.io", "localhost", "127.0.0.1"]

  const ValidTlds: seq<string> := [".com", ".org", ".net", ".io", ".in", ".edu", ".gov"]

  /** `any(p in s for p in patterns)`, evaluated left to right. */
  function AnyContained(s: string, patterns: seq<string>): bool {
    if patterns == [] then false
    else Contains(s, patterns[0]) || AnyContained(s, patterns[1..])
  }

  /** `any(s.endswith(p) for p in suffixes)`, evaluated left to right. */
  function AnySuffix(s: string, suffixes: seq<string>): bool {
    if suffixes == [] then false
    else EndsWith(s, suffixes[0]) || AnySuffix(s, suffixes[1..])
  }

  /** The heuristic verdict: it looks at the lower-cased scheme and the
      lower-cased netloc (not the hostname). */
  function PreliminaryHeuristicCheck(u: Url): (r: string)
    ensures r == LikelySafeText || r == LikelyMaliciousText
  {
    var domain := Lower(u.netloc);
    var scheme := Lower(u.scheme);
    var https := scheme == "https";
    var isTunnel := AnyContained(domain, TunnelingDomains);
    var hasValidTld := AnySuffix(domain, ValidTlds);
    if https && !isTunnel && hasValidTld then LikelySafeText else LikelyMaliciousText
  }

  /** The comprehension over the tunnel list means "some listed pattern occurs". */
  lemma {:induction false} AnyContainedMeans(s: string, patterns: seq<string>)
    ensures AnyContained(s, patterns) <==> exists k :: 0 <= k < |patterns| && Contains(s, patterns[k])
  {
    if patterns != [] {
      AnyContainedMeans(s, patterns[1..]);
      if AnyContained(s, patterns[1..]) {
        var k :| 0 <= k < |patterns| - 1 && Contains(s, patterns[1..][k]);
        assert Contains(s, patterns[k + 1]);
      }
      if exists k :: 0 <= k < |patterns| && Contains(s, patterns[k]) {
        var k :| 0 <= k < |patterns| && Contains(s, patterns[k]);
        if k > 0 {
          assert patterns[1..][k - 1] == patterns[k];
        }
      }
    }
  }

  /** The comprehension over the TLD list means "some listed suffix ends the string". */
  lemma {:induction false} AnySuffixMeans(s: string, suffixes: seq<string>)
    ensures AnySuffix(s, suffixes) <==> exists k :: 0 <= k < |suffixes| && EndsWith(s, suffixes[k])
  {
    if suffixes != [] {
      AnySuffixMeans(s, suffixes[1..]);
      if AnySuffix(s, suffixes[1..]) {
        var k :| 0 <= k < |suffixes| - 1 && EndsWith(s, suffixes[1..][k]);
        assert EndsWith(s, suffixes[k + 1]);
      }
      if exists k :: 0 <= k < |suffixes| && EndsWith(s, suffixes[k]) {
        var k :| 0 <= k < |suffixes| && EndsWith(s, suffixes[k]);
        if k > 0 {
          assert suffixes[1..][k - 1] == suffixes[k];
        }
      }
    }
  }

  /** The URL is judged likely safe exactly when its scheme is https, no
      tunnel or shortener name occurs in its netloc, and the netloc ends in
      an allowed top-level domain -- all compared lower-cased. */
  lemma HeuristicSafeIff(u: Url)
    ensures var d := Lower(u.netloc);
      PreliminaryHeuristicCheck(u) == LikelySafeText <==>
        && Lower(u.scheme) == "https"
        && !Contains(d, "is.gd") && !Contains(d, "bit.ly") && !Contains(d, "tinyurl.com")
        && !Contains(d, "ngrok.io") && !Contains(d, "loclx.io") && !Contains(d, "localhost")
        && !Contains(d, "127.0.0.1")
        && (EndsWith(d, ".com") || EndsWith(d, ".org") || EndsWith(d, ".net") || EndsWith(d, ".io")
            || EndsWith(d, ".in") || EndsWith(d, ".edu") || EndsWith(d, ".gov"))
  {
    var d := Lower(u.netloc);
    AnyContainedMeans(d, TunnelingDomains);
    AnySuffixMeans(d, ValidTlds);
    assert LikelySafeText != LikelyMaliciousText by {
      assert LikelySafeText[0] != LikelyMaliciousText[0];
    }
    if exists k :: 0 <= k < |TunnelingDomains| && Contains(d, TunnelingDomains[k]) {
      var k :| 0 <= k < |TunnelingDomains| && Contains(d, TunnelingDomains[k]);
      assert k in {0, 1, 2, 3, 4, 5, 6};
    } else {
      assert !Contains(d, TunnelingDomains[0]) && !Contains(d, TunnelingDomains[1]);
      assert !Contains(d, TunnelingDomains[2]) && !Contains(d, TunnelingDomains[3]);
      assert !Contains(d, TunnelingDomains[4]) && !Contains(d, TunnelingDomains[5]);
      assert !Contains(d, TunnelingDomains[6]);
    }
    if exists k :: 0 <= k < |ValidTlds| && EndsWith(d, ValidTlds[k]) {
      var k :| 0 <= k < |ValidTlds| && EndsWith(d, ValidTlds[k]);
      assert k in {0, 1, 2, 3, 4, 5, 6};
    } else {
      assert !EndsWith(d, ValidTlds[0]) && !EndsWith(d, ValidTlds[1]);
      assert !EndsWith(d, ValidTlds[2]) && !EndsWith(d, ValidTlds[3]);
      assert !EndsWith(d, ValidTlds[4]) && !EndsWith(d, ValidTlds[5]);
      assert !EndsWith(d, ValidTlds[6]);
    }
  }

  /** The verdict ignores letter case in the scheme and the netloc. */
  lemma HeuristicCaseInsensitive(u: Url, v: Url)
    requires Lower(u.scheme) == Lower(v.scheme) && Lower(u.netloc) == Lower(v.netloc)
    ensures PreliminaryHeuristicCheck(u) == PreliminaryHeuristicCheck(v)
  {
  }

  /** Any scheme other than https (in any letter case) is flagged. */
  lemma NonHttpsIsMalicious(u: Url)
    requires Lower(u.scheme) != "https"
    ensures PreliminaryHeuristicCheck(u) == LikelyMaliciousText
  {
  }

  /** A netloc containing any tunnel or shortener name (in any letter case) is flagged. */
  lemma TunnelIsMalicious(u: Url, k: nat)
    requires k < |TunnelingDomains| && Contains(Lower(u.netloc), TunnelingDomains[k])
    ensures PreliminaryHeuristicCheck(u) == LikelyMaliciousText
  {
    AnyContainedMeans(Lower(u.netloc), TunnelingDomains);
  }

  /** Because the rule reads the netloc, an explicit port hides the
      top-level domain: `https://example.com:443` is flagged. */
  lemma PortHidesTld()
    ensures PreliminaryHeuristicCheck(Url("https", "example.com:443", "example.com")) == LikelyMaliciousText
  {
    var d := Lower("example.com:443");
    assert d == "example.com:443";
    HeuristicSafeIff(Url("https", "example.com:443", "example.com"));
    assert d[|d| - 4..] == ":443";
    assert d[|d| - 3..] == "443";
  }

  /** `https://example.com` is judged likely safe. */
  lemma ExampleDotComIsSafe()
    ensures PreliminaryHeuristicCheck(Url("https", "example.com", "example.com")) == LikelySafeText
  {
    var d := Lower("example.com");
    assert d == "example.com";
    assert Lower("https") == "https";
    MissingCharNotContained(d, "is.gd", 0);
    MissingCharNotContained(d, "bit.ly", 0);
    MissingCharNotContained(d, "tinyurl.com", 0);
    MissingCharNotContained(d, "ngrok.io", 0);
    MissingCharNotContained(d, "loclx.io", 6);
    MissingCharNotContained(d, "localhost", 5);
    MissingCharNotContained(d, "127.0.0.1", 0);
    assert d[|d| - 4..] == ".com";
    HeuristicSafeIff(Url("https", "example.com", "example.com"));
  }

  /** `http://bit.ly/abc` is flagged (plain http, and a shortener). */
  lemma BitLyIsMalicious()
    ensures PreliminaryHeuristicCheck(Url("http", "bit.ly", "bit.ly")) == LikelyMaliciousText
  {
    assert Lower("http") == "http";
  }
}
