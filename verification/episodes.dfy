/**
 * The episode catalogue and its two lookups.
 *
 * A `Date` is its instant in milliseconds since the epoch; a date-only string
 * such as "2026-01-30" denotes midnight UTC.
 */
module Episodes {
  import opened Wrappers

  datatype Episode = Episode(
    id: string,
    title: string,
    description: string,
    courseType: string,
    duration: nat,                   // seconds
    videoUrl: string,
    transcript: string,
    thumbnailUrl: Option<string>,
    createdAt: int,
    updatedAt: int
  )

  /** `SAMPLE_EPISODES`. */
  const SAMPLE_EPISODES: seq<Episode> := [
    Episode(
      "understanding-react-hooks",
      "Understanding React Hooks",
      "Learn how to use React Hooks to manage state in functional components",
      "HS Literature",
      1263,
      "https://example.com/videos/react-hooks.mp4",
      "In this lesson, we explore React Hooks, a feature that lets you use state in functional components.\n\n"
      + "Before Hooks, you could only use state in class components. Hooks changed that.\n\n"
      + "The most common Hook is useState. It lets you add state to a functional component.\n\n"
      + "Another important Hook is useEffect. It handles side effects like data fetching or DOM updates.\n\n"
      + "Hooks follow two rules: only call them at the top level, and only from React functions.\n\n"
      + "Understanding these concepts will make you a better React developer.",
      None,
      1769731200000,
      1769731200000
    )
  ]

  /**
   * `catalogue.find(ep => ep.id === id) || null`: the first episode with that
   * id, and `None` exactly when there is none.
   */
  function FindEpisode(catalogue: seq<Episode>, id: string): (r: Option<Episode>)
    ensures r.None? <==> forall i :: 0 <= i < |catalogue| ==> catalogue[i].id != id
    ensures r.Some? ==> r.value in catalogue && r.value.id == id
  {
    if catalogue == [] then None
    else if catalogue[0].id == id then Some(catalogue[0])
    else FindEpisode(catalogue[1..], id)
  }

  /** The episode found is the first one with the id, in catalogue order. */
  lemma {:induction false} FindReturnsFirst(catalogue: seq<Episode>, id: string, i: nat)
    requires i < |catalogue| && IsFirstWithId(catalogue, id, i)
    ensures FindEpisode(catalogue, id) == Some(catalogue[i])
    decreases i
  {
    if i > 0 {
      assert catalogue[0].id != id;
      FindReturnsFirst(catalogue[1..], id, i - 1);
    }
  }

  /** `catalogue[i]` has the id and no earlier episode has it. */
  predicate IsFirstWithId(catalogue: seq<Episode>, id: string, i: nat)
    requires i < |catalogue|
  {
    catalogue[i].id == id && forall j :: 0 <= j < i ==> catalogue[j].id != id
  }

  /** `getEpisodeById`: a catalogue episode with the id, and null exactly when the catalogue has none. */
  function GetEpisodeById(id: string): (r: Option<Episode>)
    ensures r.Some? ==> r.value.id == id && r.value in GetAllEpisodes()
    ensures r.None? <==> forall e :: e in GetAllEpisodes() ==> e.id != id
  {
    FindEpisode(SAMPLE_EPISODES, id)
  }

  /** `getAllEpisodes`: the catalogue, unchanged. */
  function GetAllEpisodes(): seq<Episode> {
    SAMPLE_EPISODES
  }

  /** A found episode carries the id asked for, and every catalogue episode can be found by its id. */
  lemma LookupAgreesWithCatalogue(id: string)
    ensures GetEpisodeById(id).Some? ==> GetEpisodeById(id).value.id == id && GetEpisodeById(id).value in GetAllEpisodes()
    ensures forall e :: e in GetAllEpisodes() ==> GetEpisodeById(e.id).Some?
  {
    forall e | e in GetAllEpisodes() ensures GetEpisodeById(e.id).Some? {
      var i :| 0 <= i < |SAMPLE_EPISODES| && SAMPLE_EPISODES[i] == e;
    }
  }
}
