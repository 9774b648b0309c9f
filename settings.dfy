/** The three list-valued properties of the Django `Settings` class
    (todoproject/settings_config.py): comma-separated environment strings turned into lists. */
module Settings {
  import opened PyStrings

  /** `[x.strip() for x in s.split(',')]`, the comprehension all three properties share. */
  function CommaItems(s: string): (r: seq<string>)
    ensures |r| == Count(s, ',') + 1
    ensures forall k :: 0 <= k < |r| ==> IsStripped(r[k])
  {
    StripAll(Split(s, ','))
  }

  /** `Settings.allowed_hosts`: one item per comma-separated piece (so never empty), each stripped. */
  function AllowedHosts(allowedHostsVar: string): (r: seq<string>)
    ensures |r| == Count(allowedHostsVar, ',') + 1
    ensures forall k :: 0 <= k < |r| ==> IsStripped(r[k]) && r[k] == Strip(Split(allowedHostsVar, ',')[k])
  {
    CommaItems(allowedHostsVar)
  }

  /** `Settings.csrf_trusted_origins`: the same shape as `allowed_hosts`, with no emptiness guard. */
  function CsrfTrustedOrigins(csrfTrustedOriginsVar: string): (r: seq<string>)
    ensures |r| == Count(csrfTrustedOriginsVar, ',') + 1
    ensures forall k :: 0 <= k < |r| ==> IsStripped(r[k]) && r[k] == Strip(Split(csrfTrustedOriginsVar, ',')[k])
  {
    CommaItems(csrfTrustedOriginsVar)
  }

  /** `Settings.cors_origin_whitelist`: only the empty string is guarded; any other value,
      blank ones included, gives one stripped item per piece. */
  function CorsOriginWhitelist(whitelistVar: string): (r: seq<string>)
    ensures whitelistVar == "" <==> r == []
    ensures whitelistVar != "" ==> |r| == Count(whitelistVar, ',') + 1
    ensures forall k :: 0 <= k < |r| ==> IsStripped(r[k]) && r[k] == Strip(Split(whitelistVar, ',')[k])
  {
    if whitelistVar == "" then [] else CommaItems(whitelistVar)
  }

  /** When no piece carries surrounding whitespace, joining the items with commas gives the
      environment string back: nothing is lost, reordered or merged. */
  lemma {:induction false} CommaItemsRoundTrip(s: string)
    requires forall k :: 0 <= k < |Split(s, ',')| ==> IsStripped(Split(s, ',')[k])
    ensures Join(CommaItems(s), ',') == s
  {
    StripAllStripped(Split(s, ','));
    JoinSplit(s, ',');
  }

  lemma {:induction false} SplitWithoutSeparator(s: string, sep: char)
    requires sep !in s
    ensures Split(s, sep) == [s]
  {
    if s != [] {
      SplitWithoutSeparator(s[1..], sep);
      assert s == [s[0]] + s[1..];
    }
  }

  lemma StripBlank(s: string)
    requires AllSpace(s)
    ensures Strip(s) == ""
  {
  }

  /** Edge cases of the guard: an empty `ALLOWED_HOSTS` still gives one (empty) host, an empty
      whitelist gives none, but a blank, comma-free whitelist gives one empty origin. */
  lemma {:induction false} EmptyAndBlankValues(blank: string)
    requires blank != "" && AllSpace(blank) && ',' !in blank
    ensures AllowedHosts("") == [""] && CsrfTrustedOrigins("") == [""]
    ensures CorsOriginWhitelist("") == []
    ensures CorsOriginWhitelist(blank) == [""]
  {
    SplitWithoutSeparator(blank, ',');
    StripBlank(blank);
  }

  /** A separator-free prefix followed by the separator becomes one piece of its own. */
  lemma {:induction false} SplitAtSeparator(a: string, sep: char, rest: string)
    requires sep !in a
    ensures Split(a + [sep] + rest, sep) == [a] + Split(rest, sep)
  {
    if a == [] {
      assert a + [sep] + rest == [sep] + rest;
      assert ([sep] + rest)[1..] == rest;
    } else {
      SplitAtSeparator(a[1..], sep, rest);
      assert (a + [sep] + rest)[1..] == a[1..] + [sep] + rest;
      assert [a[0]] + a[1..] == a;
    }
  }

  /** Empty pieces are kept: `"a,,b"` gives three hosts, the middle one empty. */
  lemma EmptyPiecesKept(a: string, b: string)
    requires ',' !in a && ',' !in b && IsStripped(a) && IsStripped(b)
    ensures AllowedHosts(a + "," + "," + b) == [a, "", b]
  {
    SplitWithoutSeparator(b, ',');
    SplitAtSeparator([], ',', b);
    assert [] + [','] + b == "," + b;
    SplitAtSeparator(a, ',', "," + b);
    assert a + "," + "," + b == a + [','] + ("," + b);
    assert Split(a + "," + "," + b, ',') == [a, "", b];
    StripAllStripped([a, "", b]);
  }
}
