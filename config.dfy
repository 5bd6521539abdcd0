/**
 * Backend settings read from the environment: the DEBUG flag and the
 * comma-separated list of allowed CORS origins.
 */
module Config {
  import opened Text
  import opened Wrappers

  const DefaultCorsOrigins: string := "http://localhost:3000"

  /** `debug`: the lower-cased DEBUG variable (default "false") equals "true". */
  function Debug(env: Option<string>): (on: bool)
    ensures env.None? ==> !on
    ensures env.Some? ==> (on <==>
      |env.value| == 4 && env.value[0] in "tT" && env.value[1] in "rR"
      && env.value[2] in "uU" && env.value[3] in "eE")
  {
    var v := env.GetOr("false");
    assert Lower("false") == "false";
    assert |v| == 4 ==> Lower(v) == [LowerChar(v[0]), LowerChar(v[1]), LowerChar(v[2]), LowerChar(v[3])];
    Lower(v) == "true"
  }

  /** The stripped, non-empty segments of `parts`, in order. */
  function NonEmptyStripped(parts: seq<string>): seq<string>
  {
    if |parts| == 0 then []
    else
      var o := Strip(parts[0], IsPySpace);
      (if o != "" then [o] else []) + NonEmptyStripped(parts[1..])
  }

  /** `cors_origins_list`: split on ',', strip each segment, drop the empty ones. */
  function CorsOriginsList(corsOrigins: string): seq<string>
  {
    NonEmptyStripped(Split(corsOrigins, ','))
  }

  /** The CORS setting as the environment gives it, with its default. */
  function CorsOrigins(env: Option<string>): string
  {
    env.GetOr(DefaultCorsOrigins)
  }

  /** An origin as the list returns it: non-empty, no comma, no white space at either end. */
  predicate CleanOrigin(o: string)
  {
    o != "" && ',' !in o && !IsPySpace(o[0]) && !IsPySpace(o[|o| - 1])
  }

  lemma {:induction false} NonEmptyStrippedClean(parts: seq<string>)
    requires forall i :: 0 <= i < |parts| ==> ',' !in parts[i]
    ensures forall i :: 0 <= i < |NonEmptyStripped(parts)| ==> CleanOrigin(NonEmptyStripped(parts)[i])
  {
    if |parts| > 0 {
      NonEmptyStrippedClean(parts[1..]);
      var o := Strip(parts[0], IsPySpace);
      StripSpec(parts[0], IsPySpace);
      assert ',' !in o;
    }
  }

  /** No returned origin is empty, holds a comma, or has white space at either end. */
  lemma CorsOriginsAreClean(corsOrigins: string)
    ensures forall i :: 0 <= i < |CorsOriginsList(corsOrigins)| ==> CleanOrigin(CorsOriginsList(corsOrigins)[i])
  {
    NonEmptyStrippedClean(Split(corsOrigins, ','));
  }

  lemma {:induction false} NonEmptyStrippedMembers(parts: seq<string>, o: string)
    ensures o in NonEmptyStripped(parts) <==> exists p :: p in parts && o == Strip(p, IsPySpace) && o != ""
  {
    if |parts| > 0 {
      NonEmptyStrippedMembers(parts[1..], o);
      assert forall p :: p in parts <==> p == parts[0] || p in parts[1..];
    }
  }

  /** An origin is listed iff it is the non-empty strip of some comma-separated segment. */
  lemma CorsOriginsMembers(corsOrigins: string, o: string)
    ensures o in CorsOriginsList(corsOrigins)
      <==> exists p :: p in Split(corsOrigins, ',') && o == Strip(p, IsPySpace) && o != ""
  {
    NonEmptyStrippedMembers(Split(corsOrigins, ','), o);
  }

  lemma {:induction false} NonEmptyStrippedOfClean(origins: seq<string>)
    requires forall i :: 0 <= i < |origins| ==> CleanOrigin(origins[i])
    ensures NonEmptyStripped(origins) == origins
  {
    if |origins| > 0 {
      StripClean(origins[0], IsPySpace);
      NonEmptyStrippedOfClean(origins[1..]);
      assert [origins[0]] + origins[1..] == origins;
    }
  }

  /**
   * Round trip: writing a list of clean origins as one comma-separated
   * setting gives back the same list, in the same order.
   */
  lemma CorsOriginsRoundTrip(origins: seq<string>)
    requires |origins| >= 1
    requires forall i :: 0 <= i < |origins| ==> CleanOrigin(origins[i])
    ensures CorsOriginsList(Join(origins, ',')) == origins
  {
    SplitJoin(origins, ',');
    NonEmptyStrippedOfClean(origins);
  }

  /** Without CORS_ORIGINS the list is exactly ["http://localhost:3000"]. */
  lemma DefaultCorsOriginsList()
    ensures CorsOriginsList(CorsOrigins(None)) == [DefaultCorsOrigins]
  {
    assert ',' !in DefaultCorsOrigins;
    assert CleanOrigin(DefaultCorsOrigins);
    CorsOriginsRoundTrip([DefaultCorsOrigins]);
  }
}
