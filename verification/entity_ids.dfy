/** The unique ids of the three entities an entry sets up. */
module EntityIds {
  import opened Entities
  import Sensor
  import BinarySensor

  /** Appending a fixed suffix loses nothing: the entry id is recovered from the unique id. */
  lemma SuffixIsInjective(a: string, b: string, suffix: string)
    requires a + suffix == b + suffix
    ensures a == b
  {
    assert |a| == |b|;
    assert a == (a + suffix)[..|a|];
    assert b == (b + suffix)[..|b|];
  }

  /** Two ids ending in suffixes that differ in their third-last character are different. */
  lemma ThirdLastCharSeparates(a: string, b: string, s: string, t: string)
    requires |s| >= 3 && |t| >= 3
    requires s[|s| - 3] != t[|t| - 3]
    ensures a + s != b + t
  {
    var u, v := a + s, b + t;
    assert u[|u| - 3] == s[|s| - 3];
    assert v[|v| - 3] == t[|t| - 3];
  }

  /** Each entity's unique id identifies the entry it belongs to. */
  lemma UniqueIdsIdentifyEntry(e1: Entry, e2: Entry)
    ensures Sensor.WantedMoviesUniqueId(e1) == Sensor.WantedMoviesUniqueId(e2) ==> e1.entryId == e2.entryId
    ensures Sensor.WantedEpisodesUniqueId(e1) == Sensor.WantedEpisodesUniqueId(e2) ==> e1.entryId == e2.entryId
    ensures BinarySensor.HealthIssuesUniqueId(e1) == BinarySensor.HealthIssuesUniqueId(e2) ==> e1.entryId == e2.entryId
  {
  }

  /** Ids of different kinds never collide, whichever entries they belong to. */
  lemma UniqueIdsOfDifferentKindsDiffer(e1: Entry, e2: Entry)
    ensures Sensor.WantedMoviesUniqueId(e1) != Sensor.WantedEpisodesUniqueId(e2)
    ensures Sensor.WantedMoviesUniqueId(e1) != BinarySensor.HealthIssuesUniqueId(e2)
    ensures Sensor.WantedEpisodesUniqueId(e1) != BinarySensor.HealthIssuesUniqueId(e2)
  {
    ThirdLastCharSeparates(e1.entryId, e2.entryId, Sensor.MoviesSuffix, Sensor.EpisodesSuffix);
    ThirdLastCharSeparates(e1.entryId, e2.entryId, Sensor.MoviesSuffix, BinarySensor.HealthSuffix);
    ThirdLastCharSeparates(e1.entryId, e2.entryId, Sensor.EpisodesSuffix, BinarySensor.HealthSuffix);
  }
}
