/**
 * The public agency profile (src/pages/AgencyProfile.tsx): which agency the
 * page shows, and the display forms of its website, social links and contact
 * address.
 */
module AgencyProfile {
  import opened Wrappers
  import opened Seqs
  import opened Text
  import opened Types
  import opened MockData

  /**
   * `id ? agencies.find(a => a.id === id) : agencies[0]`, then `|| null`: an
   * absent or empty route id shows the first agency, and `None` is the
   * not-found state.
   */
  function LookupAgency(ags: seq<Agency>, id: Option<string>): Option<Agency> {
    if id.Some? && id.value != "" then FindAgency(ags, id.value)
    else if ags == [] then None
    else Some(ags[0])
  }

  /** With an id: the first agency carrying it, or not found when none does. */
  lemma LookupWithId(ags: seq<Agency>, id: string)
    requires id != ""
    ensures LookupAgency(ags, Some(id)).None? <==> forall k :: 0 <= k < |ags| ==> ags[k].id != id
    ensures LookupAgency(ags, Some(id)).Some? ==>
      exists k :: 0 <= k < |ags| && ags[k] == LookupAgency(ags, Some(id)).value && ags[k].id == id &&
        forall j :: 0 <= j < k ==> ags[j].id != id
  {
    FindSpec(ags, a => HasId(id, a));
  }

  /** Without an id: the first agency, and not found only for an empty list. */
  lemma LookupWithoutId(ags: seq<Agency>, id: Option<string>)
    requires id.None? || id.value == ""
    ensures LookupAgency(ags, id).None? <==> ags == []
    ensures ags != [] ==> LookupAgency(ags, id) == Some(ags[0])
  {
  }

  /** `website.replace(/^https?:\/\//, '')`: one leading scheme is removed, nothing else. */
  function StripScheme(s: string): string {
    if StartsWith(s, "https://") then s[8..]
    else if StartsWith(s, "http://") then s[7..]
    else s
  }

  /** The display is a suffix of the address, shorter by 0, 7 or 8 characters. */
  lemma StripSchemeSuffix(s: string)
    ensures var r := StripScheme(s);
      |r| <= |s| && r == s[|s| - |r|..] && |s| - |r| in {0, 7, 8}
    ensures !StartsWith(s, "https://") && !StartsWith(s, "http://") ==> StripScheme(s) == s
  {
  }

  /** Removing the scheme undoes prefixing one, once: the rest is never touched. */
  lemma StripSchemeOfPrefixed(t: string)
    ensures StripScheme("https://" + t) == t
    ensures StripScheme("http://" + t) == t
    ensures StripScheme("https://http://" + t) == "http://" + t
  {
    assert StartsWith("https://" + t, "https://");
    assert ("https://" + t)[8..] == t;
    assert !StartsWith("http://" + t, "https://") by {
      assert ("http://" + t)[4] == ':';
    }
    assert StartsWith("http://" + t, "http://");
    assert ("http://" + t)[7..] == t;
    assert "https://http://" + t == "https://" + ("http://" + t);
  }

  /** `s.split('/').pop()`: the text after the last '/', or all of `s` when it has none. */
  function LastSegment(s: string): string {
    if s == "" then ""
    else if s[|s| - 1] == '/' then ""
    else LastSegment(s[..|s| - 1]) + [s[|s| - 1]]
  }

  /** The segment is a suffix without '/', and it is preceded by a '/' unless it is the whole string. */
  lemma {:induction false} LastSegmentSpec(s: string)
    ensures var r := LastSegment(s);
      |r| <= |s| && r == s[|s| - |r|..] && '/' !in r &&
      (|r| < |s| ==> s[|s| - |r| - 1] == '/')
  {
    if s != "" && s[|s| - 1] != '/' {
      var init := s[..|s| - 1];
      LastSegmentSpec(init);
      var r := LastSegment(init);
      assert init[|init| - |r|..] + [s[|s| - 1]] == s[|s| - |r| - 1..];
      if |r| < |init| {
        assert init[|init| - |r| - 1] == s[|s| - |r| - 2];
      }
    }
  }

  /** What follows the last '/' is the segment: a partner built by appending. */
  lemma {:induction false} LastSegmentOfJoin(p: string, t: string)
    requires '/' !in t
    ensures LastSegment(p + "/" + t) == t
    ensures LastSegment(t) == t
    decreases |t|
  {
    if t == "" {
      assert (p + "/" + t)[|p + "/" + t| - 1] == '/';
    } else {
      var init := t[..|t| - 1];
      assert '/' !in init by {
        forall k | 0 <= k < |init| ensures init[k] != '/' {
          assert init[k] == t[k];
        }
      }
      LastSegmentOfJoin(p, init);
      assert (p + "/" + t)[..|p + "/" + t| - 1] == p + "/" + init;
      assert (p + "/" + t)[|p + "/" + t| - 1] == t[|t| - 1];
      assert init + [t[|t| - 1]] == t;
    }
  }

  /** The Instagram line: '@' and the last segment. */
  function InstagramHandle(s: string): (handle: string)
    ensures |handle| >= 1 && handle[0] == '@' && handle[1..] == LastSegment(s)
  {
    "@" + LastSegment(s)
  }

  /** `${agency.userId}@example.com`, shown and used after `mailto:`. */
  function ContactAddress(userId: string): string {
    userId + "@example.com"
  }

  function MailtoLink(userId: string): string {
    "mailto:" + ContactAddress(userId)
  }

  /** The address gives back the user id, so different users get different addresses. */
  lemma ContactAddressInjective(u: string, v: string)
    ensures ContactAddress(u)[..|u|] == u
    ensures ContactAddress(u) == ContactAddress(v) ==> u == v
    ensures MailtoLink(u)[7..] == ContactAddress(u)
  {
    assert ContactAddress(u)[..|u|] == u;
    if ContactAddress(u) == ContactAddress(v) {
      assert |u| == |v|;
      assert ContactAddress(v)[..|v|] == v;
    }
  }
}
