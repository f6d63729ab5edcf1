/**
 The activity's state while it is shown: which screen is displayed, the
 vitals latched when a measurement finishes, the values the measurement
 screen holds, the star ratings of the symptoms screen, the records the
 history screen displays, and the record table. Each button callback of
 the four screens is a method.

 Compose keeps the measurement screen's two values and the symptoms
 screen's ratings only while that screen is displayed, so entering the
 measurement screen starts both values at 0 and entering the symptoms
 screen starts the ratings at ten zeros.
 */
module Session {
  import opened Vitals
  import opened Ratings
  import opened Records
  import opened Store

  datatype Option<T> = None | Some(value: T)

  datatype Screen = Home | Measure | Symptoms | History

  /** A heart rate a session can hold: 0 before the measurement button is
      pressed, the placeholder's value after. */
  predicate SessionHeartRate(hr: int) {
    hr == 0 || hr == PlaceholderHeartRate
  }

  /** A record a session of this app can have saved. */
  predicate SessionRecord(r: HealthRecord) {
    WellFormed(r) && SessionHeartRate(r.heartRate)
  }

  class MonitorActivity {
    var screen: Screen
    /** The vitals latched by `onFinish`. */
    var hr: int
    var rr: int
    /** The measurement screen's `heartRate` and `respRate`. */
    var meterHr: int
    var meterRr: int
    /** The symptoms screen's `ratings` list. */
    var ratings: array<int>
    /** The history screen's `records`. */
    var shown: seq<HealthRecord>
    /** The database. */
    var db: HealthRecordStore

    ghost predicate Valid()
      reads this, ratings, db
    {
      ratings.Length == SymptomCount && ValidRatings(ratings[..]) &&
      SessionHeartRate(hr) && SessionHeartRate(meterHr) && rr >= 0 && meterRr >= 0 &&
      db.Valid() &&
      (forall k :: 0 <= k < |db.rows| ==> SessionRecord(db.rows[k])) &&
      (forall k :: 0 <= k < |shown| ==> SessionRecord(shown[k]))
    }

    /** `onCreate`: the home screen, both vitals 0, over a table that may
        already hold records saved by earlier runs. */
    constructor (store: HealthRecordStore)
      requires store.Valid()
      requires forall k :: 0 <= k < |store.rows| ==> SessionRecord(store.rows[k])
      ensures Valid()
      ensures screen == Home && hr == 0 && rr == 0 && db == store && shown == []
    {
      screen := Home;
      hr, rr := 0, 0;
      meterHr, meterRr := 0, 0;
      ratings := new int[SymptomCount](_ => 0);
      shown := [];
      db := store;
    }

    /** Home's "Record Health Data": open the measurement screen. */
    method OnRecord()
      requires Valid() && screen == Home
      modifies this
      ensures Valid()
      ensures screen == Measure && meterHr == 0 && meterRr == 0
      ensures hr == old(hr) && rr == old(rr) && db == old(db) && ratings == old(ratings) && shown == old(shown)
    {
      screen := Measure;
      meterHr, meterRr := 0, 0;
    }

    /** Home's "View History": open the history screen, which loads every
        row of the table. */
    method OnView()
      requires Valid() && screen == Home
      modifies this
      ensures Valid()
      ensures screen == History && multiset(shown) == multiset(db.rows)
      ensures hr == old(hr) && rr == old(rr) && db == old(db) && ratings == old(ratings)
      ensures meterHr == old(meterHr) && meterRr == old(meterRr)
    {
      screen := History;
      shown := db.GetAllRecords();
      forall k | 0 <= k < |shown| ensures SessionRecord(shown[k]) {
        assert shown[k] in multiset(db.rows);
      }
    }

    /** Home's "Delete All Records": empty the table; the screen stays. */
    method OnDelete()
      requires Valid() && screen == Home
      modifies db
      ensures Valid()
      ensures screen == Home && db.rows == [] && db.nextId == old(db.nextId)
    {
      db.DeleteAll();
    }

    /** "Start Heart Rate Measurement": the estimate is shown on the screen. */
    method MeasureHeartRate<C, U>(context: C, uri: U)
      requires Valid() && screen == Measure
      modifies this
      ensures Valid()
      ensures meterHr == HeartRateFromVideo(context, uri) && meterRr == old(meterRr)
      ensures screen == old(screen) && hr == old(hr) && rr == old(rr)
      ensures db == old(db) && ratings == old(ratings) && shown == old(shown)
    {
      meterHr := HeartRateFromVideo(context, uri);
    }

    /** "Start Respiratory Rate Measurement" over the three CSV files. A file
        that cannot be read is `None`: the failure is caught and the value on
        the screen stays as it was. */
    method MeasureRespRate(x: Option<seq<Sample>>, y: Option<seq<Sample>>, z: Option<seq<Sample>>)
      requires Valid() && screen == Measure
      modifies this
      ensures Valid()
      ensures meterRr == if x.Some? && y.Some? && z.Some?
                         then RespRateFromCsv(x.value, y.value, z.value)
                         else old(meterRr)
      ensures meterHr == old(meterHr) && screen == old(screen) && hr == old(hr) && rr == old(rr)
      ensures db == old(db) && ratings == old(ratings) && shown == old(shown)
    {
      if x.Some? && y.Some? && z.Some? {
        meterRr := RespRateFromCsv(x.value, y.value, z.value);
      }
    }

    /** "Save & Continue" (`onFinish`): latch the vitals on screen and open the
        symptoms screen with ten unrated symptoms. */
    method OnFinish()
      requires Valid() && screen == Measure
      modifies this
      ensures Valid()
      ensures hr == old(meterHr) && rr == old(meterRr) && screen == Symptoms
      ensures fresh(ratings) && ratings[..] == InitialRatings()
      ensures db == old(db) && shown == old(shown)
    {
      hr, rr := meterHr, meterRr;
      screen := Symptoms;
      ratings := new int[SymptomCount](_ => 0);
      assert ratings[..] == InitialRatings();
    }

    /** A click on star `star` of symptom `i`. */
    method ClickStar(i: nat, star: int)
      requires Valid() && screen == Symptoms
      requires ValidClick(StarClick(i, star))
      modifies ratings
      ensures Valid()
      ensures ratings[..] == Click(old(ratings[..]), StarClick(i, star))
    {
      ratings[i] := star;
      assert ratings[..] == Click(old(ratings[..]), StarClick(i, star));
      ClickKeepsValid(old(ratings[..]), StarClick(i, star));
    }

    /** "Upload Symptoms" (`onSave`): insert the record built from the latched
        vitals and the ratings, and return to the home screen. */
    method OnSave()
      requires Valid() && screen == Symptoms
      modifies this, db
      ensures Valid()
      ensures screen == Home && hr == old(hr) && rr == old(rr) && db == old(db)
      ensures db.rows == old(db.rows) + [RecordFromSession(hr, rr, old(ratings[..])).(id := old(db.nextId))]
      ensures db.nextId == old(db.nextId) + 1
      ensures old(db.nextId) !in Keys(old(db.rows))
    {
      var record := RecordFromSession(hr, rr, ratings[..]);
      assert ratings[..][..SymptomCount] == ratings[..];
      var ok := db.Insert(record);
      screen := Home;
      assert SessionRecord(db.rows[|db.rows| - 1]);
    }

    /** History's "Back to Home". */
    method OnBack()
      requires Valid() && screen == History
      modifies this
      ensures Valid()
      ensures screen == Home && hr == old(hr) && rr == old(rr) && db == old(db)
      ensures ratings == old(ratings) && shown == old(shown)
    {
      screen := Home;
    }
  }

  /** One session from the home screen back to it over an empty table: the
      history then shows exactly the saved record, with the placeholder heart
      rate, the window count of the shortest axis and the last star clicked
      per symptom. Deleting twice empties the table, and the key counter keeps
      the key that was used. */
  method SessionScenario(store: HealthRecordStore, x: seq<Sample>, y: seq<Sample>, z: seq<Sample>)
    requires store.Valid() && store.rows == []
    modifies store
    ensures store.rows == [] && store.nextId == old(store.nextId) + 1
  {
    var app := new MonitorActivity(store);
    app.OnRecord();
    app.MeasureHeartRate("context", "android.resource://heart_rate");
    app.MeasureRespRate(Some(x), Some(y), Some(z));
    app.OnFinish();
    app.ClickStar(1, 4);
    app.ClickStar(1, 2);
    app.ClickStar(7, 5);
    app.OnSave();
    app.OnView();
    var saved := store.rows[0];
    assert store.rows == [saved];
    assert app.shown == [saved] by {
      assert multiset(app.shown) == multiset{saved};
      assert |app.shown| == 1;
      assert app.shown[0] in multiset(app.shown);
    }
    assert saved.id == old(store.nextId);
    assert saved.heartRate == PlaceholderHeartRate;
    assert saved.respiratoryRate == RespRateFromCsv(x, y, z);
    assert saved.Symptoms() == [0, 2, 0, 0, 0, 0, 0, 5, 0, 0];
    app.OnBack();
    app.OnDelete();
    app.OnDelete();
  }
}
