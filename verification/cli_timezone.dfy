/** The `configure timezone` command without its prompt: the option list offered, the option
    pre-selected, and what a choice stores in the configuration. */
module Timezones {

  const CommonTimezones: seq<string> := [
    "America/New_York", "America/Chicago", "America/Denver", "America/Los_Angeles",
    "America/Anchorage", "Pacific/Honolulu", "America/Phoenix", "America/Detroit",
    "America/Indiana/Indianapolis", "America/Kentucky/Louisville", "America/Boise",
    "America/Seattle", "America/Portland"]

  const SystemLocal := "System Local Timezone"

  /** How many times `x` occurs in `s`. */
  function Count(s: seq<string>, x: string): nat
  {
    if |s| == 0 then 0 else (if s[0] == x then 1 else 0) + Count(s[1..], x)
  }

  lemma {:induction false} CountAppend(s: seq<string>, t: seq<string>, x: string)
    ensures Count(s + t, x) == Count(s, x) + Count(t, x)
  {
    if |s| > 0 {
      assert (s + t)[1..] == s[1..] + t;
      CountAppend(s[1..], t, x);
    } else {
      assert s + t == t;
    }
  }

  lemma {:induction false} CountMember(s: seq<string>, x: string)
    ensures Count(s, x) > 0 <==> x in s
  {
    if |s| > 0 {
      CountMember(s[1..], x);
      assert x in s <==> s[0] == x || x in s[1..];
    }
  }

  lemma {:induction false} DistinctCountsOnce(s: seq<string>, x: string)
    requires forall i, j :: 0 <= i < j < |s| ==> s[i] != s[j]
    ensures Count(s, x) <= 1
  {
    if |s| > 0 {
      DistinctCountsOnce(s[1..], x);
      if s[0] == x {
        CountMember(s[1..], x);
        assert x !in s[1..];
      }
    }
  }

  /** No zone is listed twice, and none of them is the system-local option. */
  lemma CommonTimezonesDistinct()
    ensures forall i, j :: 0 <= i < j < |CommonTimezones| ==> CommonTimezones[i] != CommonTimezones[j]
    ensures SystemLocal !in CommonTimezones
  {
  }

  /** With a configured zone that is not the system-local label, the options hold it once. */
  lemma OptionsHoldConfiguredOnce(configured: string, zones: seq<string>)
    requires configured != "" && configured != SystemLocal
    requires zones == if configured !in CommonTimezones then CommonTimezones + [configured] else CommonTimezones
    ensures Count(zones + [SystemLocal], configured) == 1
  {
    CommonTimezonesDistinct();
    DistinctCountsOnce(CommonTimezones, configured);
    CountAppend(zones, [SystemLocal], configured);
    CountMember(CommonTimezones, configured);
    if configured !in CommonTimezones {
      CountAppend(CommonTimezones, [configured], configured);
    }
  }

  /** The options offered: the common zones, the configured zone when it is set and not among
      them, and the system-local option last. A configured zone appears exactly once. */
  function TimezoneOptions(configured: string): (r: seq<string>)
    ensures |r| > |CommonTimezones| && r[..|CommonTimezones|] == CommonTimezones
    ensures r[|r| - 1] == SystemLocal
    ensures configured == "" ==> r == CommonTimezones + [SystemLocal]
    ensures configured != "" ==> configured in r
    ensures configured != "" && configured != SystemLocal ==> Count(r, configured) == 1
    ensures |r| == |CommonTimezones| + (if configured != "" && configured !in CommonTimezones then 2 else 1)
    ensures configured != "" && configured !in CommonTimezones ==> r[|CommonTimezones|] == configured
  {
    var zones := if configured != "" && configured !in CommonTimezones
                 then CommonTimezones + [configured] else CommonTimezones;
    var r := zones + [SystemLocal];
    assert r[..|CommonTimezones|] == CommonTimezones;
    assert configured != "" && configured != SystemLocal ==> Count(r, configured) == 1 by {
      if configured != "" && configured != SystemLocal {
        OptionsHoldConfiguredOnce(configured, zones);
      }
    }
    r
  }

  /** The option pre-selected for a configured zone: the zone itself when it is one of the
      options, otherwise the system-local option. */
  function DefaultTimezone(configured: string): (r: string)
    ensures r in TimezoneOptions(configured)
    ensures configured == "" ==> r == SystemLocal
    ensures configured != "" ==> r == configured
  {
    var options := TimezoneOptions(configured);
    if configured == "" then SystemLocal
    else if configured in options then configured
    else SystemLocal
  }

  /** What a choice stores: the system-local option clears the setting, any other zone is
      stored as chosen. */
  function StoredTimezone(selected: string): (r: string)
    ensures selected == SystemLocal ==> r == ""
    ensures selected != SystemLocal ==> r == selected
  {
    if selected == SystemLocal then "" else selected
  }

  /** Accepting the pre-selected option keeps the configuration as it was, unless it held the
      option's own label. */
  lemma DefaultKeepsConfiguration(configured: string)
    requires configured != SystemLocal
    ensures StoredTimezone(DefaultTimezone(configured)) == configured
  {
  }
}
