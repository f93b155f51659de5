/**
  The proxy's configuration: one section per virtual host, each a map from
  key to value, and the start-up validation `load_config` performs before the
  application is built.
 */
module ProxyConfig {
  import opened Basics

  type Section = map<string, string>

  /** Section name (the virtual host) to its keys. */
  type Config = map<string, Section>

  const ORIGIN_KEY: string := "origin"
  const ALLOWED_METHODS_KEY: string := "allowed_methods"
  const ADD_FORWARDED_FOR_KEY: string := "add_forwarded_for"

  /** A configuration as the INI parser hands it over: the section names in
      file order, and the keys of each section. */
  datatype Parsed = Parsed(names: seq<string>, sections: Config)
  {
    /** The names list exactly the sections. */
    ghost predicate WellFormed() {
      forall n :: n in names <==> n in sections
    }
  }

  /** Why start-up is abandoned (the source logs and calls `exit(-1)`). */
  datatype ConfigError =
    | Empty
    | MissingOrigin(section: string)
    | MissingAllowedMethods(section: string)

  /** A section the router and forwarder can use: both required keys are
      present (their values are not inspected). */
  predicate HasRequiredKeys(s: Section) {
    ORIGIN_KEY in s && ALLOWED_METHODS_KEY in s
  }

  /** Every section has both required keys. */
  predicate ConfigValid(config: Config) {
    forall n :: n in config ==> HasRequiredKeys(config[n])
  }

  /** The sections `names`, checked in order; the first one lacking a
      required key decides the error, `origin` being looked for first. */
  function CheckSections(names: seq<string>, sections: Config): (r: Result<Config, ConfigError>)
    requires forall n :: n in names ==> n in sections
    ensures r.Ok? ==> r.value == sections
    ensures r.Err? ==> !r.error.Empty? && r.error.section in names
    ensures r.Err? && r.error.MissingOrigin? ==> ORIGIN_KEY !in sections[r.error.section]
    ensures r.Err? && r.error.MissingAllowedMethods? ==> ALLOWED_METHODS_KEY !in sections[r.error.section]
  {
    if names == [] then Ok(sections)
    else
      var s := sections[names[0]];
      if ORIGIN_KEY !in s then Err(MissingOrigin(names[0]))
      else if ALLOWED_METHODS_KEY !in s then Err(MissingAllowedMethods(names[0]))
      else CheckSections(names[1..], sections)
  }

  /** The verdict of `load_config` on a parsed configuration. */
  function Validate(p: Parsed): (r: Result<Config, ConfigError>)
    requires p.WellFormed()
    ensures r == Err(Empty) <==> p.names == []
    ensures r.Ok? ==> r.value == p.sections
    ensures r.Err? && !r.error.Empty? ==> r.error.section in p.names
  {
    if p.names == [] then Err(Empty) else CheckSections(p.names, p.sections)
  }

  /** `load_config` after the file has been read: reject an empty
      configuration, then walk the sections in order and stop at the first
      one that lacks `origin` or `allowed_methods`. */
  method LoadConfig(p: Parsed) returns (r: Result<Config, ConfigError>)
    requires p.WellFormed()
    ensures r == Validate(p)
  {
    if p.names == [] {
      return Err(Empty);
    }
    var i := 0;
    while i < |p.names|
      invariant 0 <= i <= |p.names|
      invariant CheckSections(p.names, p.sections) == CheckSections(p.names[i..], p.sections)
    {
      var c := p.names[i];
      assert p.names[i..][1..] == p.names[i + 1..];
      if ORIGIN_KEY !in p.sections[c] {
        return Err(MissingOrigin(c));
      }
      if ALLOWED_METHODS_KEY !in p.sections[c] {
        return Err(MissingAllowedMethods(c));
      }
      i := i + 1;
    }
    return Ok(p.sections);
  }

  /** Checking a list of sections succeeds exactly when each of them has both
      required keys, and on success hands back the whole configuration. */
  lemma {:induction false} CheckSectionsOk(names: seq<string>, sections: Config)
    requires forall n :: n in names ==> n in sections
    ensures CheckSections(names, sections).Ok? <==>
              forall n :: n in names ==> HasRequiredKeys(sections[n])
    ensures CheckSections(names, sections).Ok? ==> CheckSections(names, sections).value == sections
    decreases |names|
  {
    if names != [] {
      assert forall n :: n in names <==> n == names[0] || n in names[1..];
      CheckSectionsOk(names[1..], sections);
    }
  }

  /** An error names a section of the list that lacks the key it reports, and
      every section before it has both keys. */
  lemma {:induction false} CheckSectionsError(names: seq<string>, sections: Config)
    requires forall n :: n in names ==> n in sections
    requires CheckSections(names, sections).Err?
    ensures exists i :: 0 <= i < |names| && FirstViolation(names, sections, i, CheckSections(names, sections).error)
    decreases |names|
  {
    var e := CheckSections(names, sections).error;
    var s := sections[names[0]];
    if ORIGIN_KEY !in s || ALLOWED_METHODS_KEY !in s {
      assert FirstViolation(names, sections, 0, e);
    } else {
      CheckSectionsError(names[1..], sections);
      var i :| 0 <= i < |names[1..]| && FirstViolation(names[1..], sections, i, e);
      assert FirstViolation(names, sections, i + 1, e);
    }
  }

  /** `names[i]` is the first section lacking a required key, and `e` reports
      the key it lacks. */
  ghost predicate FirstViolation(names: seq<string>, sections: Config, i: nat, e: ConfigError)
    requires i < |names|
    requires forall n :: n in names ==> n in sections
  {
    && (forall j :: 0 <= j < i ==> HasRequiredKeys(sections[names[j]]))
    && var s := sections[names[i]];
       match e
       case Empty => false
       case MissingOrigin(n) => n == names[i] && ORIGIN_KEY !in s
       case MissingAllowedMethods(n) => n == names[i] && ORIGIN_KEY in s && ALLOWED_METHODS_KEY !in s
  }

  /** `load_config` accepts exactly the configurations that have at least one
      section and whose every section has both required keys; what it accepts
      is the configuration itself, and it satisfies `ConfigValid`. */
  lemma ValidateAccepts(p: Parsed)
    requires p.WellFormed()
    ensures Validate(p).Ok? <==> p.names != [] && ConfigValid(p.sections)
    ensures Validate(p).Ok? ==> Validate(p).value == p.sections && ConfigValid(Validate(p).value)
  {
    if p.names != [] {
      CheckSectionsOk(p.names, p.sections);
    }
  }

  /** A rejection is `Empty` exactly for a configuration without sections;
      otherwise it names the first section, in file order, that lacks the
      reported key. */
  lemma ValidateRejects(p: Parsed)
    requires p.WellFormed()
    requires Validate(p).Err?
    ensures Validate(p).error == Empty <==> p.names == []
    ensures p.names != [] ==>
              exists i :: 0 <= i < |p.names| && FirstViolation(p.names, p.sections, i, Validate(p).error)
  {
    if p.names != [] {
      CheckSectionsError(p.names, p.sections);
      var i :| 0 <= i < |p.names| && FirstViolation(p.names, p.sections, i, Validate(p).error);
    }
  }

  /** Values are not inspected: a section whose `origin` and
      `allowed_methods` are empty strings is accepted. */
  lemma EmptyValuesAccepted()
    ensures Validate(Parsed(["h"], map["h" := map[ORIGIN_KEY := "", ALLOWED_METHODS_KEY := ""]])).Ok?
  {
    var p := Parsed(["h"], map["h" := map[ORIGIN_KEY := "", ALLOWED_METHODS_KEY := ""]]);
    assert p.WellFormed();
    assert ConfigValid(p.sections);
    ValidateAccepts(p);
  }
}
