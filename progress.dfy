/**
 * The bird-progress rules of bird_manager.py on values: the achievement
 * table, the two progress maps (which birds are unlocked, the best score
 * per bird) and what loading, saving, raising a score and checking an
 * achievement do to them. The class BirdManager in module Manager is
 * proved against these functions.
 */
module BirdProgress {
  import opened Wrappers

  /** One entry of the achievement table. */
  datatype Achievement = Achievement(name: string, requirement: int, description: string)

  /** The achievement table, one entry per bird type that can be unlocked. */
  const Achievements: map<string, Achievement> := map[
    "red" := Achievement("Speed Demon", 50, "Moves faster horizontally."),
    "yellow" := Achievement("Heavy Lifter", 30, "Stronger flap, falls faster."),
    "blue" := Achievement("Graceful Glider", 40, "Falls more gently.")
  ]

  /** The bird types in the order the table lists them. */
  const BirdTypes: seq<string> := ["red", "yellow", "blue"]

  /** The extra high-score entry that belongs to no bird type. */
  const DefaultScoreKey: string := "default"

  /** The bird that is unlocked without an achievement. */
  const StarterBird: string := "blue"

  /** The manager's two maps: bird type to unlocked flag, and score key to best score. */
  datatype Progress = Progress(unlocked: map<string, bool>, highScores: map<string, int>)

  /**
   * The decoded progress file: each of its two entries may be absent (or
   * null, for the unlocked map).
   */
  datatype SavedData = SavedData(unlocked: Option<map<string, bool>>, highScores: Option<map<string, int>>)

  /**
   * The progress file as load_progress finds it: not there, there but
   * unusable (bad JSON, an I/O error or any other exception while reading
   * it), or there with a decoded record.
   */
  datatype StoredFile = Missing | Unreadable | Present(data: SavedData)

  /** Every bird type of the table locked, except the starter bird. */
  function DefaultUnlocked(): map<string, bool> {
    map b | b in Achievements :: b == StarterBird
  }

  /** A zero score for every bird type of the table and for the default key. */
  function ZeroScores(): map<string, int> {
    map k | k in Achievements.Keys + {DefaultScoreKey} :: 0
  }

  /** The maps BirdManager.__init__ writes before it loads the file. */
  function Initial(): Progress {
    Progress(map["blue" := true, "red" := false, "yellow" := false],
             map["red" := 0, "yellow" := 0, "blue" := 0, "default" := 0])
  }

  /** The maps written by the constructor are the defaults that loading falls back to. */
  lemma InitialIsDefault()
    ensures Initial() == Progress(DefaultUnlocked(), ZeroScores())
  {
    var u := DefaultUnlocked();
    assert u.Keys == {"blue", "red", "yellow"};
    var z := ZeroScores();
    assert z.Keys == {"red", "yellow", "blue", "default"};
  }

  /** base with the value saved for each of its keys; saved keys outside base are dropped. */
  function Merge(base: map<string, bool>, saved: map<string, bool>): map<string, bool> {
    map b | b in base :: if b in saved then saved[b] else base[b]
  }

  /** load_progress: the new maps, given the file and the maps before the call. */
  function Load(file: StoredFile, current: Progress): Progress {
    match file
    case Missing => Progress(DefaultUnlocked(), current.highScores)
    case Unreadable => Progress(DefaultUnlocked(), ZeroScores())
    case Present(data) =>
      Progress(if data.unlocked.Some? then Merge(DefaultUnlocked(), data.unlocked.value) else DefaultUnlocked(),
               data.highScores.GetOr(current.highScores))
  }

  /** save_progress: the file then holds both maps. */
  function Saved(p: Progress): StoredFile {
    Present(SavedData(Some(p.unlocked), Some(p.highScores)))
  }

  /** is_bird_unlocked: a bird absent from the map counts as locked. */
  predicate IsUnlocked(p: Progress, bird: string) {
    bird in p.unlocked && p.unlocked[bird]
  }

  /** The best score recorded for bird, where a missing entry counts as 0. */
  function Best(p: Progress, bird: string): int {
    if bird in p.highScores then p.highScores[bird] else 0
  }

  /** The condition under which check_achievements unlocks bird. */
  predicate UnlockDue(p: Progress, bird: string, score: int) {
    bird in Achievements && !IsUnlocked(p, bird) && score >= Achievements[bird].requirement
  }

  /** check_achievements on the maps. */
  function CheckAchievements(p: Progress, bird: string, score: int): Progress {
    if UnlockDue(p, bird, score) then p.(unlocked := p.unlocked[bird := true]) else p
  }

  /** update_score on the maps: seed a missing entry with 0, then raise it and check the achievement. */
  function UpdateScore(p: Progress, bird: string, score: int): Progress {
    var seeded := if bird in p.highScores then p else p.(highScores := p.highScores[bird := 0]);
    if score > seeded.highScores[bird] then
      CheckAchievements(seeded.(highScores := seeded.highScores[bird := score]), bird, score)
    else
      seeded
  }

  /** Whether update_score writes the progress file: only when it unlocks a bird. */
  predicate UpdateSaves(p: Progress, bird: string, score: int) {
    score > Best(p, bird) && UnlockDue(p, bird, score)
  }

  /** The unlocked map of a manager holds exactly the bird types of the table. */
  predicate KnowsEveryBird(p: Progress) {
    p.unlocked.Keys == Achievements.Keys
  }

  // ---------------------------------------------------------------- loading

  /** Whatever the file holds, loading leaves exactly the table's bird types in the unlocked map. */
  lemma LoadKnowsEveryBird(file: StoredFile, current: Progress)
    ensures KnowsEveryBird(Load(file, current))
  {
  }

  /**
   * After loading, a bird is unlocked exactly when it is in the table and
   * either the file's unlocked map says so or, with no saved value for it,
   * it is the starter bird.
   */
  lemma LoadUnlocks(file: StoredFile, current: Progress, bird: string)
    ensures IsUnlocked(Load(file, current), bird) <==>
              bird in Achievements &&
              if file.Present? && file.data.unlocked.Some? && bird in file.data.unlocked.value
              then file.data.unlocked.value[bird]
              else bird == StarterBird
  {
  }

  /**
   * The high scores after loading: kept when there is no file, zeroed when
   * it is unusable, replaced wholesale by a saved map and kept when the
   * file has none.
   */
  lemma LoadHighScores(file: StoredFile, current: Progress)
    ensures file.Missing? ==> Load(file, current).highScores == current.highScores
    ensures file.Unreadable? ==>
              forall k :: k in Load(file, current).highScores <==> k in Achievements || k == DefaultScoreKey
    ensures file.Unreadable? ==> forall k :: k in Load(file, current).highScores ==> Load(file, current).highScores[k] == 0
    ensures file.Present? && file.data.highScores.Some? ==>
              Load(file, current).highScores == file.data.highScores.value
    ensures file.Present? && file.data.highScores.None? ==>
              Load(file, current).highScores == current.highScores
  {
  }

  /** A file that cannot be read gives the constructor's maps, whatever came before. */
  lemma LoadErrorGivesDefaults(current: Progress)
    ensures Load(Unreadable, current) == Initial()
  {
    InitialIsDefault();
  }

  /** A fresh manager without a progress file has the constructor's maps. */
  lemma FreshManagerWithoutFile()
    ensures Load(Missing, Initial()) == Initial()
  {
    InitialIsDefault();
  }

  /** Saving and then loading into any manager reproduces both maps of a manager. */
  lemma {:induction false} SaveLoadRoundTrip(p: Progress, current: Progress)
    requires KnowsEveryBird(p)
    ensures Load(Saved(p), current) == p
  {
    var u := Load(Saved(p), current).unlocked;
    assert u.Keys == p.unlocked.Keys;
    forall b | b in u
      ensures u[b] == p.unlocked[b]
    {
    }
  }

  /**
   * A file that lacks one of its two entries: the unlocked map falls back to
   * the defaults, the scores to those the manager already had.
   */
  lemma {:induction false} MissingEntriesDefault(u: map<string, bool>, scores: map<string, int>)
    ensures Load(Present(SavedData(None, Some(scores))), Initial()) == Progress(Initial().unlocked, scores)
    ensures u.Keys == Achievements.Keys ==>
              Load(Present(SavedData(Some(u), None)), Initial()) == Progress(u, Initial().highScores)
  {
    InitialIsDefault();
    if u.Keys == Achievements.Keys {
      SaveLoadRoundTrip(Progress(u, scores), Initial());
    }
  }

  /** Saved entries for bird types outside the table are ignored by loading. */
  lemma LoadIgnoresUnknownBirds(u: map<string, bool>, scores: Option<map<string, int>>, current: Progress, bird: string)
    requires bird !in Achievements
    ensures bird !in Load(Present(SavedData(Some(u), scores)), current).unlocked
  {
  }

  // --------------------------------------------------------------- updating

  /**
   * update_score's effect on the scores: the bird's entry is the larger of
   * its old value (0 when absent) and score, the entry exists afterwards,
   * no other entry changes and no score goes down.
   */
  lemma UpdateScoreRaises(p: Progress, bird: string, score: int)
    ensures UpdateScore(p, bird, score).highScores.Keys == p.highScores.Keys + {bird}
    ensures UpdateScore(p, bird, score).highScores[bird] == if score > Best(p, bird) then score else Best(p, bird)
    ensures forall k :: k in p.highScores && k != bird ==> UpdateScore(p, bird, score).highScores[k] == p.highScores[k]
    ensures forall k :: k in p.highScores ==> UpdateScore(p, bird, score).highScores[k] >= p.highScores[k]
  {
  }

  /**
   * check_achievements unlocks the bird exactly when the bird is in the
   * table, is not unlocked yet and the score meets its requirement; no other
   * flag and no score changes.
   */
  lemma CheckAchievementsUnlocks(p: Progress, bird: string, score: int)
    ensures CheckAchievements(p, bird, score).highScores == p.highScores
    ensures UnlockDue(p, bird, score) ==>
              CheckAchievements(p, bird, score).unlocked == p.unlocked[bird := true]
    ensures !UnlockDue(p, bird, score) ==> CheckAchievements(p, bird, score) == p
    ensures forall b :: IsUnlocked(CheckAchievements(p, bird, score), b) <==>
              IsUnlocked(p, b) || (b == bird && UnlockDue(p, bird, score))
  {
  }

  /**
   * update_score unlocks a bird only through a new high score: afterwards a
   * bird is unlocked exactly when it was before, or it is the scored bird,
   * the score beats its best and its achievement is due.
   */
  lemma UpdateScoreUnlocks(p: Progress, bird: string, score: int)
    ensures forall b :: IsUnlocked(UpdateScore(p, bird, score), b) <==>
              IsUnlocked(p, b) || (b == bird && UpdateSaves(p, bird, score))
  {
  }

  /** Neither update ever locks a bird again. */
  lemma UnlockingIsMonotone(p: Progress, bird: string, score: int, b: string)
    requires IsUnlocked(p, b)
    ensures IsUnlocked(CheckAchievements(p, bird, score), b)
    ensures IsUnlocked(UpdateScore(p, bird, score), b)
  {
  }

  /** Both updates keep the unlocked map holding exactly the table's bird types. */
  lemma UpdatesKnowEveryBird(p: Progress, bird: string, score: int)
    requires KnowsEveryBird(p)
    ensures KnowsEveryBird(CheckAchievements(p, bird, score))
    ensures KnowsEveryBird(UpdateScore(p, bird, score))
  {
  }

  /**
   * A score that does not beat the best changes nothing, except that a bird
   * missing from the score map gets its 0 entry.
   */
  lemma LowerScoreChangesNothing(p: Progress, bird: string, score: int)
    requires score <= Best(p, bird)
    ensures UpdateScore(p, bird, score) == p.(highScores := p.highScores[bird := Best(p, bird)])
    ensures bird in p.highScores ==> UpdateScore(p, bird, score) == p
  {
  }

  /**
   * A red score of 55 on a fresh manager unlocks red, and a manager started
   * afterwards from the file written on that unlock sees it and the score.
   */
  lemma UnlockSurvivesRestart()
    ensures UpdateSaves(Initial(), "red", 55)
    ensures Load(Saved(UpdateScore(Initial(), "red", 55)), Initial()) == UpdateScore(Initial(), "red", 55)
    ensures IsUnlocked(UpdateScore(Initial(), "red", 55), "red")
    ensures UpdateScore(Initial(), "red", 55).highScores["red"] == 55
    ensures !IsUnlocked(UpdateScore(Initial(), "red", 55), "yellow")
    ensures IsUnlocked(UpdateScore(Initial(), "red", 55), "blue")
  {
    var p := UpdateScore(Initial(), "red", 55);
    UpdatesKnowEveryBird(Initial(), "red", 55);
    SaveLoadRoundTrip(p, Initial());
  }

  /** A yellow score of 25 is a new high score but below the requirement of 30. */
  lemma NewHighScoreWithoutUnlock()
    ensures UpdateScore(Initial(), "yellow", 25).highScores["yellow"] == 25
    ensures !IsUnlocked(UpdateScore(Initial(), "yellow", 25), "yellow")
    ensures !UpdateSaves(Initial(), "yellow", 25)
  {
  }
}
