/**
 * The class BirdManager of bird_manager.py: its two maps are fields that
 * its methods update in place, and the progress file is an object whose
 * contents save_progress replaces. Every method is proved against the
 * functions of BirdProgress through the Snapshot of the two maps.
 */
module Manager {
  import opened Wrappers
  import opened BirdProgress

  /** The progress file on disk, as the record it holds. */
  class ProgressFile {
    var contents: StoredFile

    constructor (contents: StoredFile)
      ensures this.contents == contents
    {
      this.contents := contents;
    }
  }

  class BirdManager {
    const progressFile: ProgressFile
    var unlockedBirds: map<string, bool>
    var highScores: map<string, int>

    /** The unlocked map names every bird type of the achievement table and no other. */
    ghost predicate Valid()
      reads this
    {
      KnowsEveryBird(Snapshot())
    }

    /** The value of the two maps. */
    function Snapshot(): Progress
      reads this
    {
      Progress(unlockedBirds, highScores)
    }

    /** __init__: the initial maps, then load_progress from file. */
    constructor (file: ProgressFile)
      ensures progressFile == file
      ensures Valid()
      ensures Snapshot() == Load(file.contents, Initial())
    {
      progressFile := file;
      unlockedBirds := map["blue" := true, "red" := false, "yellow" := false];
      highScores := map["red" := 0, "yellow" := 0, "blue" := 0, "default" := 0];
      new;
      LoadProgress();
    }

    /**
     * load_progress: the unlocked map restarts from the defaults and takes
     * the saved flag of each known bird type, one saved entry at a time; the
     * scores are kept, zeroed or replaced as the file dictates.
     */
    method LoadProgress()
      modifies this
      ensures Valid()
      ensures Snapshot() == Load(progressFile.contents, old(Snapshot()))
    {
      var defaults := DefaultUnlocked();
      match progressFile.contents
      case Missing =>
        unlockedBirds := defaults;
      case Unreadable =>
        unlockedBirds := defaults;
        highScores := ZeroScores();
      case Present(data) =>
        unlockedBirds := defaults;
        if data.unlocked.Some? {
          unlockedBirds := MergeSaved(defaults, data.unlocked.value);
        }
        highScores := data.highScores.GetOr(highScores);
    }

    /**
     * The loop of load_progress over the saved unlocked map: each saved
     * entry whose bird is already a key overwrites that key's flag; any
     * other saved entry is skipped.
     */
    static method MergeSaved(base: map<string, bool>, saved: map<string, bool>) returns (merged: map<string, bool>)
      ensures merged.Keys == base.Keys
      ensures forall b :: b in base && b in saved ==> merged[b] == saved[b]
      ensures forall b :: b in base && b !in saved ==> merged[b] == base[b]
      ensures merged == Merge(base, saved)
    {
      merged := base;
      var todo := saved.Keys;
      while todo != {}
        invariant todo <= saved.Keys
        invariant merged.Keys == base.Keys
        invariant forall b :: b in merged ==>
                    merged[b] == if b in saved && b !in todo then saved[b] else base[b]
        decreases todo
      {
        var b :| b in todo;
        if b in merged {
          merged := merged[b := saved[b]];
        }
        todo := todo - {b};
      }
    }

    /** save_progress: the file holds both maps afterwards. */
    method SaveProgress()
      modifies progressFile
      ensures progressFile.contents == Saved(Snapshot())
    {
      progressFile.contents := Saved(Snapshot());
    }

    /**
     * update_score: seed a missing entry with 0; a score above the best
     * becomes the best and is checked against the bird's achievement, which
     * writes the file when it unlocks the bird.
     */
    method UpdateScore(bird: string, score: int)
      modifies this, progressFile
      ensures Snapshot() == BirdProgress.UpdateScore(old(Snapshot()), bird, score)
      ensures progressFile.contents ==
                if UpdateSaves(old(Snapshot()), bird, score) then Saved(Snapshot()) else old(progressFile.contents)
    {
      if bird !in highScores {
        highScores := highScores[bird := 0];
      }
      if score > highScores[bird] {
        highScores := highScores[bird := score];
        CheckAchievements(bird, score);
      }
    }

    /** check_achievements: unlock the bird when its achievement is due, and save only then. */
    method CheckAchievements(bird: string, score: int)
      modifies this, progressFile
      ensures Snapshot() == BirdProgress.CheckAchievements(old(Snapshot()), bird, score)
      ensures progressFile.contents ==
                if UnlockDue(old(Snapshot()), bird, score) then Saved(Snapshot()) else old(progressFile.contents)
    {
      if bird in Achievements {
        var unlocked := if bird in unlockedBirds then unlockedBirds[bird] else false;
        if !unlocked && score >= Achievements[bird].requirement {
          unlockedBirds := unlockedBirds[bird := true];
          SaveProgress();
        }
      }
    }

    /** is_bird_unlocked: true only for a bird the map holds as unlocked. */
    function IsBirdUnlocked(bird: string): (r: bool)
      reads this
      ensures r <==> IsUnlocked(Snapshot(), bird)
      ensures bird !in unlockedBirds ==> !r
    {
      if bird in unlockedBirds then unlockedBirds[bird] else false
    }

    /** get_available_birds: every bird type of the achievement table, each once. */
    function GetAvailableBirds(): (r: seq<string>)
      ensures forall b :: b in r <==> b in Achievements
      ensures forall i, j :: 0 <= i < j < |r| ==> r[i] != r[j]
    {
      BirdTypes
    }

    /** get_bird_achievement_info: the table's entry, or None for an unknown bird type. */
    function GetBirdAchievementInfo(bird: string): (r: Option<Achievement>)
      ensures r.Some? <==> bird in Achievements
      ensures r.Some? ==> r.value == Achievements[bird]
    {
      if bird in Achievements then Some(Achievements[bird]) else None
    }
  }

  /**
   * The life of one progress file across two runs: a fresh manager without
   * a file, a red score of 55, and a second manager started from the file
   * the first one wrote.
   */
  method UnlockPersistsAcrossManagers() returns (first: BirdManager, second: BirdManager)
    ensures first.IsBirdUnlocked("red") && "red" in first.highScores && first.highScores["red"] == 55
    ensures second.IsBirdUnlocked("red") && "red" in second.highScores && second.highScores["red"] == 55
    ensures !second.IsBirdUnlocked("yellow") && second.IsBirdUnlocked("blue")
  {
    var file := new ProgressFile(Missing);
    first := new BirdManager(file);
    FreshManagerWithoutFile();
    first.UpdateScore("red", 55);
    ghost var p := BirdProgress.UpdateScore(Initial(), "red", 55);
    UnlockSurvivesRestart();
    assert first.Snapshot() == p && file.contents == Saved(p);
    second := new BirdManager(file);
    assert second.Snapshot() == p;
  }
}
