/**
 * The shared data model of shared/schema.ts: the mood and step enumerations,
 * the stored session record and the two payload shapes the API validates.
 */
module Schema {
  import opened Wrappers

  /** The three moods of MOODS. */
  datatype Mood = Happy | Okay | Stressed

  /** MOODS, in declaration order. */
  const Moods: seq<Mood> := [Happy, Okay, Stressed]

  /** The wire spelling of a mood. */
  function MoodText(m: Mood): string
  {
    match m
    case Happy => "happy"
    case Okay => "okay"
    case Stressed => "stressed"
  }

  /** Reads a mood back from its wire spelling; any other string is not a mood. */
  function ParseMood(s: string): (r: Option<Mood>)
    ensures r.Some? ==> MoodText(r.value) == s
    ensures r.None? ==> forall m :: MoodText(m) != s
  {
    if s == "happy" then Some(Happy)
    else if s == "okay" then Some(Okay)
    else if s == "stressed" then Some(Stressed)
    else None
  }

  /** Mood has exactly the three values of MOODS, with three distinct spellings. */
  lemma MoodsAreExactlyThree()
    ensures |Moods| == 3
    ensures forall m :: m in Moods
    ensures forall i, j :: 0 <= i < j < |Moods| ==> MoodText(Moods[i]) != MoodText(Moods[j])
  {
    forall m: Mood ensures m in Moods {
      match m
      case Happy => assert Moods[0] == m;
      case Okay => assert Moods[1] == m;
      case Stressed => assert Moods[2] == m;
    }
  }

  lemma ParseMoodRoundTrip(m: Mood)
    ensures ParseMood(MoodText(m)) == Some(m)
  {
  }

  /** STEPS, in declaration order. */
  const Steps: seq<int> := [1, 2, 3]

  predicate IsStep(n: int)
  {
    n in Steps
  }

  lemma StepsAreOneToThree(n: int)
    ensures IsStep(n) <==> 1 <= n <= 3
  {
  }

  /**
   * A record of the sessions table as the in-memory store holds it.
   * `step` is None when the record holds null or no step at all (the column
   * is nullable and optional); `completed` is None when the insert payload
   * left it out, because the in-memory store applies no column default.
   * Timestamps are abstract instants supplied by the caller.
   */
  datatype Session = Session(
    id: int,
    mood: string,
    step: Option<int>,
    completed: Option<bool>,
    timestampCreated: int,
    timestampUpdated: int)

  /** What insertSessionSchema lets through: mood, step and completed, nothing else. */
  datatype InsertSession = InsertSession(mood: string, step: Option<int>, completed: Option<bool>)

  /** One field of a partial update: absent from the payload, or present with a value. */
  datatype Patch<+T> = Keep | Put(value: T)

  /** What updateSessionSchema lets through: step (possibly null) and completed, each optional. */
  datatype UpdateSession = UpdateSession(step: Patch<Option<int>>, completed: Patch<bool>)

  /** The value a field has after a patch is spread over the record. */
  function Apply<T>(p: Patch<T>, current: T): T
  {
    match p
    case Keep => current
    case Put(v) => v
  }

  /** The truthiness test `session.completed` of the completed filter. */
  predicate IsCompleted(s: Session)
  {
    s.completed == Some(true)
  }
}
