# Health monitor core, modelled in Dafny

The app measures two vital signs, asks for ten symptom ratings and saves the
result as a `HealthRecord` in a Room table. This project models the logic under
its Compose screens, all of it in `MainActivity.kt`:

- `vitals.dfy` (module `Vitals`): the respiratory-rate placeholder
  `RespiratoryRateHelper.getRespRateFromCsv`, which counts whole 200-sample
  windows of the shortest accelerometer axis and scales them by `60 / 45`. That
  factor is an integer quotient, so it is exactly 1. It also models the
  heart-rate placeholder `HeartRateHelper.getHeartRateFromVideo`, which always
  reports 75.
- `ratings.dfy` (module `Ratings`): the symptoms screen's rating list. It starts
  as ten zeros, and each star click overwrites one slot. Any sequence of clicks
  is folded into one list. It is compared with a reference definition ("the
  last click on a symptom decides it").
- `records.dfy` (module `Records`): the `HealthRecord` entity. `onSave` builds
  one from the latched vitals and the ratings, slot by slot, with the default
  key 0.
- `store.dfy` (module `Store`): `HealthRecordDao` as a class over a sequence of
  rows and a key counter. Key 0 means "generate": the row gets one past the
  largest key ever issued, and `deleteAll` does not reset that counter. This is
  what an auto-generated key on an SQLite `AUTOINCREMENT` column does. A non-zero
  key is kept as it is, and the insert aborts if that key is taken.
- `session.dfy` (module `Session`): the `setContent` block of `onCreate` as a
  class. It holds the screen (`home`, `measure`, `symptoms`, `history`), the
  latched `hr`/`rr`, the values the measurement screen holds, the ratings array,
  the records the history screen shows, and the table. Each button callback is a
  method. Its invariant says that every record saved by a session has a heart
  rate of 0 or 75, a non-negative respiratory rate and ten ratings in [0, 5].

The model follows the code as written:
- `getAllRecords` has no `ORDER BY`, so no order is promised.
- `insert` returns nothing.
- The heart-rate estimator has no error cases and returns 75.
- The respiratory-rate estimator returns 0 for short or empty input rather than
  an error.
- The scaling factor `60 / 45` is kept as written.
  `Vitals.TruncatedScalingAgreesBelowThree` shows that the truncated factor
  matches the exact ratio only below three windows.

## Model

| member | source | states |
|---|---|---|
| `Vitals.Min3` | app/src/main/java/com/example/mobilecomputingmonitor1/MainActivity.kt:341 | `minOf` of three lengths is a lower bound of all three and equal to one of them |
| `Vitals.RespRateFromCsv` | app/src/main/java/com/example/mobilecomputingmonitor1/MainActivity.kt:339-348 | the rate is non-negative; every axis holds that many 200-sample windows and some axis does not hold one more; it is 0 exactly when some axis has fewer than 200 samples (empty included) |
| `Vitals.RespRateIsWindowCount` | app/src/main/java/com/example/mobilecomputingmonitor1/MainActivity.kt:341-343 | because `60 / 45` is 1, the rate equals `min(|x|,|y|,|z|) / 200` |
| `Vitals.RespRateDependsOnlyOnLengths` | app/src/main/java/com/example/mobilecomputingmonitor1/MainActivity.kt:339-347 | axes of equal lengths give equal rates, whatever the sample values |
| `Vitals.RespRateMonotone` | app/src/main/java/com/example/mobilecomputingmonitor1/MainActivity.kt:341-343 | more samples on every axis never lower the rate |
| `Vitals.TruncatedScalingAgreesBelowThree` | app/src/main/java/com/example/mobilecomputingmonitor1/MainActivity.kt:343 | `breaths * (60 / 45)` equals `breaths * 60 / 45` if and only if there are fewer than 3 breath windows |
| `Vitals.RespRateExampleTwo` | app/src/main/java/com/example/mobilecomputingmonitor1/MainActivity.kt:341-343 | lengths 450, 500 and 480 give 2 |
| `Vitals.RespRateExampleShort` | app/src/main/java/com/example/mobilecomputingmonitor1/MainActivity.kt:341-343 | three axes of 199 samples give 0 |
| `Vitals.HeartRateFromVideo` | app/src/main/java/com/example/mobilecomputingmonitor1/MainActivity.kt:352-356 | the heart-rate estimate is always 75 |
| `Vitals.HeartRateIgnoresInput` | app/src/main/java/com/example/mobilecomputingmonitor1/MainActivity.kt:352-356 | any two contexts and video locations give the same estimate |
| `Ratings.InitialRatings` | app/src/main/java/com/example/mobilecomputingmonitor1/MainActivity.kt:214 | the ratings start as ten entries, all 0, hence valid |
| `Ratings.Click` | app/src/main/java/com/example/mobilecomputingmonitor1/MainActivity.kt:229 | a click sets the clicked slot to the star; the length and the other slots are unchanged |
| `Ratings.ClickKeepsValid` | app/src/main/java/com/example/mobilecomputingmonitor1/MainActivity.kt:228-229 | a click on star 1..5 of one of the ten symptoms keeps ten ratings in [0, 5] |
| `Ratings.ClickFillsStars` | app/src/main/java/com/example/mobilecomputingmonitor1/MainActivity.kt:229-233 | after clicking star `s`, star `t` of that row is drawn filled if and only if `t <= s` |
| `Ratings.ApplyClicks` | app/src/main/java/com/example/mobilecomputingmonitor1/MainActivity.kt:228-229 | any sequence of clicks leaves a list of ten ratings |
| `Ratings.ApplyClicksSnoc` | app/src/main/java/com/example/mobilecomputingmonitor1/MainActivity.kt:229 | one more click acts on the result of the earlier clicks |
| `Ratings.LastClickWins` | app/src/main/java/com/example/mobilecomputingmonitor1/MainActivity.kt:228-229 | after any sequence of clicks, a slot holds the star of the last click on that symptom, or its starting value when there was none |
| `Ratings.ClicksKeepValid` | app/src/main/java/com/example/mobilecomputingmonitor1/MainActivity.kt:214-229 | after any sequence of clicks, the list still has ten entries, each in [0, 5] |
| `Records.HealthRecord.Symptoms` | app/src/main/java/com/example/mobilecomputingmonitor1/MainActivity.kt:35-44 | a record has exactly ten symptom columns |
| `Records.RecordFromSession` | app/src/main/java/com/example/mobilecomputingmonitor1/MainActivity.kt:103-116 | the saved record has `heartRate = hr`, `respiratoryRate = rr`, `symptomK = ratings[K-1]` for K = 1..10, and key 0 (to be generated) |
| `Records.SavedRecordFaithful` | app/src/main/java/com/example/mobilecomputingmonitor1/MainActivity.kt:103-116 | valid ratings with non-negative vitals give a well-formed record; two sessions give equal records if and only if their vitals and ratings are equal |
| `Store.HealthRecordStore.constructor` | app/src/main/java/com/example/mobilecomputingmonitor1/MainActivity.kt:73-77 | a new table is empty and will issue key 1 first |
| `Store.HealthRecordStore.Insert` | app/src/main/java/com/example/mobilecomputingmonitor1/MainActivity.kt:32-50 | key 0: exactly one row is appended, under a key no row holds, and the others are unchanged. A free non-zero key: the row is appended as given. A taken key: nothing changes and the insert fails. Keys stay distinct |
| `Store.HealthRecordStore.DeleteAll` | app/src/main/java/com/example/mobilecomputingmonitor1/MainActivity.kt:52-53 | the table is empty afterwards, so a second call changes nothing; the key counter is kept |
| `Store.HealthRecordStore.GetAllRecords` | app/src/main/java/com/example/mobilecomputingmonitor1/MainActivity.kt:55-56 | returns every current row exactly once, in no promised order |
| `Store.AutoInsertAddsOneFreshRow` | app/src/main/java/com/example/mobilecomputingmonitor1/MainActivity.kt:32-50 | the step `Insert` takes for key 0: appending under the counter's key adds exactly one row whose key is new, keeps the earlier rows as a prefix and keeps all keys distinct |
| `Session.MonitorActivity.constructor` | app/src/main/java/com/example/mobilecomputingmonitor1/MainActivity.kt:79-82 | the app starts on `home` with `hr = rr = 0` over the existing table |
| `Session.MonitorActivity.OnRecord` | app/src/main/java/com/example/mobilecomputingmonitor1/MainActivity.kt:85-86 | `home` goes to `measure`, whose two values start at 0 |
| `Session.MonitorActivity.OnView` | app/src/main/java/com/example/mobilecomputingmonitor1/MainActivity.kt:87 | `home` goes to `history`, which shows every row of the table |
| `Session.MonitorActivity.OnDelete` | app/src/main/java/com/example/mobilecomputingmonitor1/MainActivity.kt:88-90 | the table is emptied and the screen stays at `home` |
| `Session.MonitorActivity.MeasureHeartRate` | app/src/main/java/com/example/mobilecomputingmonitor1/MainActivity.kt:164-171 | the measurement screen's heart rate becomes the estimate (75) |
| `Session.MonitorActivity.MeasureRespRate` | app/src/main/java/com/example/mobilecomputingmonitor1/MainActivity.kt:180-190 | the screen's respiratory rate becomes the estimate over the three files, or is unchanged when a file cannot be read |
| `Session.MonitorActivity.OnFinish` | app/src/main/java/com/example/mobilecomputingmonitor1/MainActivity.kt:93-98 | `measure` goes to `symptoms`, latching `hr` and `rr`; the symptoms screen opens with ten zeros |
| `Session.MonitorActivity.ClickStar` | app/src/main/java/com/example/mobilecomputingmonitor1/MainActivity.kt:229 | sets `ratings[i] = star`, the other nine unchanged, keeping every rating in [0, 5] |
| `Session.MonitorActivity.OnSave` | app/src/main/java/com/example/mobilecomputingmonitor1/MainActivity.kt:101-119 | `symptoms` goes to `home` after inserting the record built from `hr`, `rr` and the ratings under a fresh key; every stored record keeps heart rate 0 or 75, respiratory rate >= 0 and ratings in [0, 5] |
| `Session.MonitorActivity.OnBack` | app/src/main/java/com/example/mobilecomputingmonitor1/MainActivity.kt:122 | `history` goes to `home` |
| `Session.SessionScenario` | app/src/main/java/com/example/mobilecomputingmonitor1/MainActivity.kt:79-123 | one full session over an empty table, then two deletions, leaves the table empty with the key counter advanced by one |

## Left out

- `readCsvToArray` (file I/O and float parsing): the three axes are parameters, and a file that cannot be read is `None`.
- Sample values: they are abstract reals, since the estimator uses only the lengths. 32-bit float parsing is not modelled.
- Room itself (`Room.databaseBuilder`, `@Database`, SQL execution, durability across restarts): the table is in memory. A table left by an earlier run is passed to the activity's constructor. The constructor requires every row of that table to be a record a session could have saved (heart rate 0 or 75, respiratory rate >= 0, ten ratings in [0, 5]); this holds only because `onSave` is the table's only writer.
- The `Thread { ... }.start()` around `insert`/`deleteAll` and the `Dispatchers.IO` coroutine that loads the history: each store call is one atomic step, taken when the callback fires or the history screen opens.
- `Store.HealthRecordStore.Insert`: a taken key yields `ok = false`. In the app it would be an uncaught exception on the background thread; the app never passes a non-zero key.
- Integer widths: Kotlin's 32-bit `Int` and SQLite's 64-bit keys are unbounded integers here. No value reached by the app comes near either bound, and key exhaustion is not modelled.
- Compose rendering and layout (`HomeScreen`, the measurement, symptoms and history layouts, icons, `LazyColumn`). The only rendering rule kept is which stars are drawn filled.
- URI construction, logging, and the try/catch around the heart-rate call: it cannot fail, because the estimator ignores its input.
- `when (screen)` over strings: the screen is an enumeration, since no other string is ever assigned.
