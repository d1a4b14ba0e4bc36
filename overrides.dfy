/** The hostname rule that forces a URL to `Malicious` (`classify_special`,
    repeated inline in `predict_url`). */
module Overrides {
  import opened Wrappers
  import opened Text
  import opened Heuristic

  const Malicious: string := "Malicious"
  const Safe: string := "Safe"

  /** True for hostnames under `loclx.io` and for anything naming the local machine. */
  predicate IsSpecialHost(hostname: string) {
    EndsWith(hostname, ".loclx.io") || Contains(hostname, "127.0.0.1") || Contains(hostname, "localhost")
  }

  /** `classify_special`: `Malicious` for a special hostname, no label otherwise. */
  function ClassifySpecial(hostname: string): (r: Option<string>)
    ensures r.Some? ==> r.value == Malicious
  {
    if IsSpecialHost(hostname) then Some(Malicious) else None
  }

  /** The override fires exactly for the three hostname patterns. */
  lemma ClassifySpecialIff(hostname: string)
    ensures ClassifySpecial(hostname) == Some(Malicious) <==>
      EndsWith(hostname, ".loclx.io") || Contains(hostname, "127.0.0.1") || Contains(hostname, "localhost")
    ensures ClassifySpecial(hostname) == None <==> !IsSpecialHost(hostname)
  {
  }

  /** A bare `loclx.io` is not a subdomain of it and is not overridden. */
  lemma BareLoclxNotSpecial()
    ensures ClassifySpecial("loclx.io") == None
  {
  }

  lemma SubdomainOfLoclxIsSpecial()
    ensures ClassifySpecial("foo.loclx.io") == Some(Malicious)
  {
    assert "foo.loclx.io"[3..] == ".loclx.io";
  }

  /** The override is stricter than the advisory rule: when the hostname is
      part of the lower-cased netloc, as `urlparse` makes it, every overridden
      URL is also flagged by the heuristic. */
  lemma OverrideImpliesHeuristicMalicious(u: Url)
    requires Contains(Lower(u.netloc), u.hostname)
    requires IsSpecialHost(u.hostname)
    ensures PreliminaryHeuristicCheck(u) == LikelyMaliciousText
  {
    var d := Lower(u.netloc);
    if EndsWith(u.hostname, ".loclx.io") {
      EndsWithContains(u.hostname, ".loclx.io");
      assert OccursAt(".loclx.io", "loclx.io", 1);
      ContainsTransitive(u.hostname, ".loclx.io", "loclx.io");
      ContainsTransitive(d, u.hostname, "loclx.io");
    } else if Contains(u.hostname, "127.0.0.1") {
      ContainsTransitive(d, u.hostname, "127.0.0.1");
    } else {
      ContainsTransitive(d, u.hostname, "localhost");
    }
    HeuristicSafeIff(u);
  }
}
