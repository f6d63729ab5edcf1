/**
 The `HealthRecord` entity (one saved session: two vitals and ten symptom
 ratings) and the mapping that builds it when the user saves the symptoms.
 */
module Records {
  import opened Ratings

  /** The key value that asks the store to generate a fresh key. */
  const AutoGenerateId: int := 0

  datatype HealthRecord = HealthRecord(
    id: int,
    heartRate: int,
    respiratoryRate: int,
    symptom1: int, symptom2: int, symptom3: int, symptom4: int, symptom5: int,
    symptom6: int, symptom7: int, symptom8: int, symptom9: int, symptom10: int)
  {
    /** The ten symptom columns in screen order. */
    function Symptoms(): (s: seq<int>)
      ensures |s| == SymptomCount
    {
      [symptom1, symptom2, symptom3, symptom4, symptom5,
       symptom6, symptom7, symptom8, symptom9, symptom10]
    }
  }

  /** A record whose columns hold what a session can produce: non-negative
      vitals and ten ratings in [0, 5]. */
  predicate WellFormed(r: HealthRecord) {
    r.heartRate >= 0 && r.respiratoryRate >= 0 && ValidRatings(r.Symptoms())
  }

  /** The record `onSave` builds: the latched vitals, `symptomK = ratings[K-1]`,
      and the default key, left for the store to generate. */
  function RecordFromSession(hr: int, rr: int, ratings: seq<int>): (r: HealthRecord)
    requires |ratings| >= SymptomCount
    ensures r.id == AutoGenerateId
    ensures r.heartRate == hr && r.respiratoryRate == rr
    ensures r.Symptoms() == ratings[..SymptomCount]
  {
    HealthRecord(
      heartRate := hr,
      respiratoryRate := rr,
      symptom1 := ratings[0], symptom2 := ratings[1], symptom3 := ratings[2],
      symptom4 := ratings[3], symptom5 := ratings[4], symptom6 := ratings[5],
      symptom7 := ratings[6], symptom8 := ratings[7], symptom9 := ratings[8],
      symptom10 := ratings[9],
      id := AutoGenerateId)
  }

  /** Saving a session with valid ratings and non-negative vitals yields a
      well-formed record, and nothing of the session is lost: equal records
      come from equal sessions. */
  lemma SavedRecordFaithful(hr: int, rr: int, ratings: seq<int>,
                            hr': int, rr': int, ratings': seq<int>)
    requires ValidRatings(ratings) && ValidRatings(ratings')
    ensures hr >= 0 && rr >= 0 ==> WellFormed(RecordFromSession(hr, rr, ratings))
    ensures RecordFromSession(hr, rr, ratings) == RecordFromSession(hr', rr', ratings')
            <==> hr == hr' && rr == rr' && ratings == ratings'
  {
  }
}
