/** Merging a named output-cache profile of the configuration into the
    filter's two lifetimes. */
module Profiles {
  import opened Common
  import opened Text

  /** An `<outputCacheProfiles>` entry: its name and its `duration` in seconds. */
  datatype Profile = Profile(name: string, duration: Int32)

  /** The profile collection of the configuration section, by exact name. */
  type ProfileTable = map<string, Int32>

  /** The part of the filter's state that a profile can change. */
  datatype Config = Config(timespan: Int32, clientTimeSpan: Int32, profile: Option<Profile>)

  /** The profile already current carries the requested name, up to case. */
  function IsCurrentProfile(c: Config, name: string): (current: bool)
    ensures current ==> c.profile.Some?
    ensures c.profile.Some? && c.profile.value.name == name ==> current
  {
    c.profile.Some? && EqualsIgnoreCase(c.profile.value.name, name)
  }

  /** `SetOutputCacheProfile`. `settings` is the configuration section, `None`
      when it is absent. */
  function ApplyProfile(c: Config, name: string, settings: Option<ProfileTable>): (r: Result<Config>)
    // asking again for the current profile changes nothing and never fails
    ensures IsCurrentProfile(c, name) ==> r == Ok(c)
    // the two failures, and nothing else fails
    ensures r.Err? <==> !IsCurrentProfile(c, name) && (settings.None? || name !in settings.value)
    ensures r.Err? && settings.None? ==> r.error == ConfigurationMissing
    ensures r.Err? && settings.Some? ==> r.error == ProfileNotFound(name)
    // a successful lookup assigns the profile and fills only the lifetimes still 0
    ensures r.Ok? && !IsCurrentProfile(c, name) ==>
      && settings.Some? && name in settings.value
      && r.value.profile == Some(Profile(name, settings.value[name]))
      && r.value.timespan == (if c.timespan == 0 then settings.value[name] else c.timespan)
      && r.value.clientTimeSpan == (if c.clientTimeSpan == 0 then settings.value[name] else c.clientTimeSpan)
    // a lifetime that is not 0, negative ones included, is never replaced
    ensures r.Ok? && c.timespan != 0 ==> r.value.timespan == c.timespan
    ensures r.Ok? && c.clientTimeSpan != 0 ==> r.value.clientTimeSpan == c.clientTimeSpan
  {
    if IsCurrentProfile(c, name) then Ok(c)
    else if settings.None? then Err(ConfigurationMissing)
    else if name in settings.value then
      var p := Profile(name, settings.value[name]);
      Ok(Config(if c.timespan == 0 then p.duration else c.timespan,
                if c.clientTimeSpan == 0 then p.duration else c.clientTimeSpan,
                Some(p)))
    else Err(ProfileNotFound(name))
  }

  /** Once a profile is current, assigning it again is a no-op. */
  lemma ApplyProfileIdempotent(c: Config, name: string, settings: Option<ProfileTable>)
    requires ApplyProfile(c, name, settings).Ok?
    ensures var c' := ApplyProfile(c, name, settings).value;
      ApplyProfile(c', name, settings) == Ok(c')
  {
    var c' := ApplyProfile(c, name, settings).value;
    assert IsCurrentProfile(c', name);
  }

  /** The early exit compares names ignoring case, the lookup does not: with
      only "Short" configured, "short" is refused on a fresh filter and
      accepted, as a no-op, once "Short" is current. */
  lemma ProfileNameCaseAsymmetry()
    ensures ApplyProfile(Config(0, 0, None), "short", Some(map["Short" := 60]))
         == Err(ProfileNotFound("short"))
    ensures var current := Config(60, 60, Some(Profile("Short", 60)));
      ApplyProfile(current, "short", Some(map["Short" := 60])) == Ok(current)
  {
    assert "short" != "Short" by { assert "short"[0] != "Short"[0]; }
    assert Lower("Short") == "short";
    assert Lower("short") == "short";
  }
}
