/** The CORS origin decision (`corsOptions.origin`). */
module Cors {
  import opened Wrappers
  import opened JsText

  datatype Decision = Allow | Deny(message: string)

  /** `process.env.ALLOWED_ORIGINS?.split(',') || []`: a set variable always yields at least one entry. */
  function AllowedOrigins(allowed: Option<string>): seq<string> {
    if allowed.Some? then Split(allowed.value, ',') else []
  }

  /** The decision for an `Origin` header (`None` when absent), given `NODE_ENV` and `ALLOWED_ORIGINS`. */
  function Origin(origin: Option<string>, nodeEnv: Option<string>, allowed: Option<string>): Decision {
    if !Truthy(origin) then Allow
    else if nodeEnv == Some("development") then Allow
    else
      var list := AllowedOrigins(allowed);
      if "*" in list || origin.value in list then Allow else Deny("Not allowed by CORS")
  }

  /** Outside development a present origin is allowed exactly when one comma-separated entry of
      `ALLOWED_ORIGINS` is `*` or is the origin itself, character for character (no trimming). */
  lemma {:induction false} OriginAllowedIff(origin: string, nodeEnv: Option<string>, allowed: Option<string>)
    requires origin != "" && nodeEnv != Some("development")
    ensures Origin(Some(origin), nodeEnv, allowed) == Allow <==>
      allowed.Some? &&
      (exists i :: 0 <= i < |Split(allowed.value, ',')| &&
         (Split(allowed.value, ',')[i] == "*" || Split(allowed.value, ',')[i] == origin))
  {
    assert Truthy(Some(origin));
    if allowed.Some? {
      var list := Split(allowed.value, ',');
      assert AllowedOrigins(allowed) == list;
      assert Origin(Some(origin), nodeEnv, allowed) == Allow <==> "*" in list || origin in list;
      if "*" in list || origin in list {
        var i :| 0 <= i < |list| && (list[i] == "*" || list[i] == origin);
        assert Split(allowed.value, ',')[i] == "*" || Split(allowed.value, ',')[i] == origin;
      } else {
        forall i | 0 <= i < |Split(allowed.value, ',')|
          ensures Split(allowed.value, ',')[i] != "*" && Split(allowed.value, ',')[i] != origin
        {
          assert Split(allowed.value, ',')[i] in list;
        }
      }
    } else {
      assert AllowedOrigins(allowed) == [];
    }
  }

  /** An entry is never matched across a comma: whatever the separator splits off stays apart, and the
      list rebuilds `ALLOWED_ORIGINS` exactly. */
  lemma {:induction false} EntriesAreExactSegments(allowed: string)
    ensures Join(AllowedOrigins(Some(allowed)), ',') == allowed
    ensures forall i :: 0 <= i < |AllowedOrigins(Some(allowed))| ==> ',' !in AllowedOrigins(Some(allowed))[i]
  {
    JoinSplit(allowed, ',');
    SplitPartsHaveNoSeparator(allowed, ',');
  }

  /** An origin containing a comma is never allowed by name outside development (only `*` admits it). */
  lemma {:induction false} CommaOriginOnlyByWildcard(origin: string, nodeEnv: Option<string>, allowed: string)
    requires ',' in origin && nodeEnv != Some("development")
    requires "*" !in Split(allowed, ',')
    ensures Origin(Some(origin), nodeEnv, Some(allowed)).Deny?
  {
    SplitPartsHaveNoSeparator(allowed, ',');
  }

  /** A single configured origin admits exactly itself. */
  lemma {:induction false} SingleOrigin(origin: string, configured: string, nodeEnv: Option<string>)
    requires origin != "" && nodeEnv != Some("development")
    requires ',' !in configured && configured != "*"
    ensures Origin(Some(origin), nodeEnv, Some(configured)) == Allow <==> origin == configured
  {
    SplitWithoutSeparator(configured, ',');
  }

  /** With `ALLOWED_ORIGINS` unset, every present origin is rejected outside development. */
  lemma UnsetRejectsAll(origin: string, nodeEnv: Option<string>)
    requires origin != "" && nodeEnv != Some("development")
    ensures Origin(Some(origin), nodeEnv, None) == Deny("Not allowed by CORS")
  {
  }

  /** An absent origin is always allowed, and so is every origin in development. */
  lemma AbsentOrDevelopmentAllowed(origin: Option<string>, nodeEnv: Option<string>, allowed: Option<string>)
    ensures Origin(None, nodeEnv, allowed) == Allow
    ensures Origin(origin, Some("development"), allowed) == Allow
  {
  }
}
