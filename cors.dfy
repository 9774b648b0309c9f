/** The module-level `CORS_ORIGIN_WHITELIST` of todoproject/cors.py, taken as a function of the
    (possibly unset) environment variable. */
module Cors {
  import opened Wrappers
  import opened PyStrings

  /** `[x for x in parts if x]`: drops the empty strings, keeping the rest in order. */
  function NonEmpty(parts: seq<string>): (r: seq<string>)
    ensures |r| <= |parts|
    ensures forall k :: 0 <= k < |r| ==> r[k] != "" && r[k] in parts
  {
    if parts == [] then []
    else if parts[0] == "" then NonEmpty(parts[1..])
    else [parts[0]] + NonEmpty(parts[1..])
  }

  /** `[o.strip() for o in os.getenv('CORS_ORIGIN_WHITELIST', '').split(',') if o.strip()]`. */
  function CorsOriginWhitelist(env: Option<string>): (r: seq<string>)
    ensures forall k :: 0 <= k < |r| ==> r[k] != "" && IsStripped(r[k])
    ensures |r| <= Count(env.GetOr(""), ',') + 1
  {
    NonEmpty(StripAll(Split(env.GetOr(""), ',')))
  }

  /** Filtering commutes with concatenation, so surviving items keep their relative order. */
  lemma {:induction false} NonEmptyAppend(a: seq<string>, b: seq<string>)
    ensures NonEmpty(a + b) == NonEmpty(a) + NonEmpty(b)
  {
    if a != [] {
      assert (a + b)[1..] == a[1..] + b;
      NonEmptyAppend(a[1..], b);
    } else {
      assert a + b == b;
    }
  }

  /** An item survives exactly when it is a non-empty stripped piece. */
  lemma {:induction false} NonEmptyMembers(parts: seq<string>, x: string)
    ensures x in NonEmpty(parts) <==> x in parts && x != ""
  {
    if parts != [] {
      NonEmptyMembers(parts[1..], x);
      assert parts == [parts[0]] + parts[1..];
    }
  }

  /** The whitelist holds exactly the non-empty stripped pieces of the variable. */
  lemma WhitelistMembers(env: Option<string>, origin: string)
    ensures origin in CorsOriginWhitelist(env)
        <==> origin != "" && origin in StripAll(Split(env.GetOr(""), ','))
  {
    NonEmptyMembers(StripAll(Split(env.GetOr(""), ',')), origin);
  }

  /** An unset or empty variable gives an empty whitelist. */
  lemma UnsetOrEmpty(env: Option<string>)
    requires env == None || env == Some("")
    ensures CorsOriginWhitelist(env) == []
  {
    assert Split("", ',') == [""];
    assert StripAll([""]) == [""];
  }
}
