/**
 * The daily removal of meal photos older than 90 days
 * (src/services/imageCleanup.ts). The stored "last run" date, the clock,
 * the signed-in user, the old-meal query and the storage/database calls
 * are inputs; the model decides which calls are made, what is counted and
 * whether the "last run" date is written.
 */
module ImageCleanup {
  import opened Common
  import opened Records

  const DayMs: int := 86_400_000
  const CleanupIntervalDays: int := 1
  const ImageRetentionDays: int := 90

  /** What reading `last_image_cleanup_date` from device storage gave. */
  datatype StoredDate = ReadFailed | Stored(value: Option<string>)

  /**
   * `shouldRunCleanup`: run when nothing (or an empty string) was stored,
   * skip when the read failed or the stored date does not parse, and
   * otherwise run when at least one whole day has passed. `parseDate` is
   * `new Date(s).getTime()`, `None` standing for NaN.
   */
  function ShouldRunCleanup(stored: StoredDate, parseDate: string -> Option<int>, now: int): (r: bool)
    ensures stored.ReadFailed? ==> !r
    ensures stored.Stored? && !Truthy(stored.value) ==> r
    ensures stored.Stored? && Truthy(stored.value) ==>
      (r <==> parseDate(stored.value.value).Some? && now - parseDate(stored.value.value).value >= DayMs)
  {
    match stored
    case ReadFailed => false
    case Stored(v) =>
      if !Truthy(v) then true
      else
        match parseDate(v.value)
        case None => false
        case Some(last) => ((now - last) as real) / (DayMs as real) >= CleanupIntervalDays as real
  }

  /** The folder name the path is taken after. */
  const Folder: string := "meal-images/"

  /** The characters `.` does not match in a JavaScript regular expression without the `s` flag. */
  predicate IsLineTerminator(c: char) {
    c == '\n' || c == '\r' || c == '\U{2028}' || c == '\U{2029}'
  }

  predicate NoLineTerminator(s: string) {
    forall k :: 0 <= k < |s| ==> !IsLineTerminator(s[k])
  }

  /** The folder name occurs in `url` at position `i`. */
  predicate FolderAt(url: string, i: int) {
    0 <= i && i + |Folder| <= |url| && url[i..i + |Folder|] == Folder
  }

  /** `/meal-images\/(.+)$/` matches with the folder name starting at `i`. */
  predicate MatchesAt(url: string, i: int) {
    && FolderAt(url, i)
    && i + |Folder| < |url|
    && NoLineTerminator(url[i + |Folder|..])
  }

  /** The first match position at or after `i`. */
  function MatchFrom(url: string, i: nat): (r: Option<nat>)
    requires i <= |url|
    ensures r.Some? ==> i <= r.value && MatchesAt(url, r.value)
    ensures r.Some? ==> forall j :: i <= j < r.value ==> !MatchesAt(url, j)
    ensures r.None? ==> forall j :: i <= j ==> !MatchesAt(url, j)
    decreases |url| - i
  {
    if i + |Folder| >= |url| then None
    else if MatchesAt(url, i) then Some(i)
    else MatchFrom(url, i + 1)
  }

  /**
   * `url.match(/meal-images\/(.+)$/)?.[1]`: the rest of the URL after the
   * leftmost occurrence of the folder name whose rest is non-empty and
   * contains no line terminator.
   */
  function ExtractPath(url: string): (r: Option<string>)
    ensures r.None? <==> forall i :: !MatchesAt(url, i)
    ensures r.Some? ==> exists i :: (MatchesAt(url, i) && r.value == url[i + |Folder|..]
      && forall j :: 0 <= j < i ==> !MatchesAt(url, j))
  {
    match MatchFrom(url, 0)
    case None => None
    case Some(i) => Some(url[i + |Folder|..])
  }

  /**
   * A public URL ending in the folder name and a storage path gives that
   * path back, provided the folder name does not occur earlier in the URL.
   */
  lemma ExtractPathOfPublicUrl(base: string, path: string)
    requires path != [] && NoLineTerminator(path)
    requires forall j :: 0 <= j < |base| ==> !FolderAt(base + Folder + path, j)
    ensures ExtractPath(base + Folder + path) == Some(path)
  {
    var url := base + Folder + path;
    assert url[|base|..|base| + |Folder|] == Folder;
    assert url[|base| + |Folder|..] == path;
    assert MatchesAt(url, |base|);
  }

  /** A row of the old-meal query: the query excludes rows without an image URL. */
  datatype OldMeal = OldMeal(id: string, imageUrl: string)

  /** What the query answered. */
  datatype QueryOutcome = QueryFailed(message: string) | QueryRows(rows: Option<seq<OldMeal>>)

  /**
   * The rows the query asks for: the user's meals created before the
   * cutoff that have an image URL, in table order.
   */
  function SelectOldMeals(table: seq<Meal>, userId: UserId, cutoff: int): (r: seq<OldMeal>)
    ensures |r| <= |table|
    ensures forall m :: m in table && m.userId == userId && m.createdAt < cutoff && m.imageUrl.Some? ==>
      OldMeal(m.id, m.imageUrl.value) in r
    ensures forall o :: o in r ==> exists m :: (m in table && m.userId == userId && m.createdAt < cutoff
      && m.imageUrl == Some(o.imageUrl) && m.id == o.id)
  {
    if table == [] then []
    else
      var m := table[0];
      var rest := SelectOldMeals(table[1..], userId, cutoff);
      assert forall x :: x in table ==> x == m || x in table[1..];
      if m.userId == userId && m.createdAt < cutoff && m.imageUrl.Some? then [OldMeal(m.id, m.imageUrl.value)] + rest
      else rest
  }

  /**
   * The cutoff `cleanupOldMealImages` queries with: `IMAGE_RETENTION_DAYS`
   * days of 24 hours before `now` (calendar days that differ from 24
   * hours across a daylight-saving change are not modelled).
   */
  function RetentionCutoff(now: int): int {
    now - ImageRetentionDays * DayMs
  }

  /**
   * The query never selects a meal younger than the retention period:
   * every selected row belongs to a meal of the user, with that image,
   * created more than 90 days before `now`; and every such meal is selected.
   */
  lemma OldMealsPassedRetention(table: seq<Meal>, userId: UserId, now: int)
    ensures forall o :: o in SelectOldMeals(table, userId, RetentionCutoff(now)) ==>
      exists m :: (m in table && m.id == o.id && m.userId == userId && now - m.createdAt > 90 * 86_400_000)
    ensures forall m :: m in table && m.userId == userId && m.imageUrl.Some? && now - m.createdAt > 90 * 86_400_000 ==>
      OldMeal(m.id, m.imageUrl.value) in SelectOldMeals(table, userId, RetentionCutoff(now))
  {
  }

  /** What happened to one meal's image. */
  datatype MealCleanup =
    | NoPath
    | RemoveFailed(path: string)
    | UpdateFailed(path: string)
    | Cleaned(path: string)

  /**
   * One iteration of the loop: no path means an error and no call; the
   * database row is updated only after the storage removal succeeded.
   * `removeOk` and `updateOk` are the answers of storage `remove([path])`
   * and of the `image_url := null` update for the meal's id.
   */
  function ProcessMeal(m: OldMeal, removeOk: string -> bool, updateOk: string -> bool): (r: MealCleanup)
    ensures r.NoPath? <==> ExtractPath(m.imageUrl).None?
    ensures !r.NoPath? ==> r.path == ExtractPath(m.imageUrl).value
    ensures r.RemoveFailed? <==> ExtractPath(m.imageUrl).Some? && !removeOk(ExtractPath(m.imageUrl).value)
    ensures r.Cleaned? <==>
      ExtractPath(m.imageUrl).Some? && removeOk(ExtractPath(m.imageUrl).value) && updateOk(m.id)
  {
    match ExtractPath(m.imageUrl)
    case None => NoPath
    case Some(path) =>
      if !removeOk(path) then RemoveFailed(path)
      else if !updateOk(m.id) then UpdateFailed(path)
      else Cleaned(path)
  }

  /** The number of cleaned images. */
  function CountCleaned(rs: seq<MealCleanup>): (n: nat)
    ensures n <= |rs|
  {
    if rs == [] then 0
    else CountCleaned(rs[..|rs| - 1]) + (if rs[|rs| - 1].Cleaned? then 1 else 0)
  }

  /** Every image counted as cleaned was removed from storage and unlinked from its meal. */
  lemma {:induction false} CountCleanedAllOrNothing(rs: seq<MealCleanup>)
    ensures CountCleaned(rs) == |rs| <==> forall i :: 0 <= i < |rs| ==> rs[i].Cleaned?
  {
    if rs != [] {
      CountCleanedAllOrNothing(rs[..|rs| - 1]);
      assert forall i :: 0 <= i < |rs| - 1 ==> rs[..|rs| - 1][i] == rs[i];
    }
  }

  /** What one cleanup run did. */
  datatype Report = Report(
    queried: bool,
    results: seq<MealCleanup>,
    deletedCount: nat,
    errorCount: nat,
    stampWritten: bool)

  /**
   * `cleanupOldMealImages`: skipped, or no user, or a failed query leave
   * the "last run" date alone; an empty answer writes it at once; otherwise
   * every row is processed in order, each counted once as deleted or as an
   * error, and the date is written afterwards. The query's answer is an
   * input; `SelectOldMeals` states which rows it asks for.
   */
  method CleanupOldMealImages(stored: StoredDate, parseDate: string -> Option<int>, now: int,
                              user: Option<UserId>, query: QueryOutcome,
                              removeOk: string -> bool, updateOk: string -> bool)
    returns (r: Report)
    ensures !ShouldRunCleanup(stored, parseDate, now) ==> !r.queried && !r.stampWritten && r.results == []
    ensures ShouldRunCleanup(stored, parseDate, now) && user.None? ==> !r.queried && !r.stampWritten
    ensures r.queried <==> ShouldRunCleanup(stored, parseDate, now) && user.Some?
    ensures r.queried && query.QueryFailed? ==> !r.stampWritten && r.results == []
    ensures r.queried && query.QueryRows? ==> r.stampWritten
    ensures r.stampWritten ==> r.queried && query.QueryRows?
    ensures r.queried && query.QueryRows? && query.rows.Some? ==>
      && |r.results| == |query.rows.value|
      && forall i :: 0 <= i < |r.results| ==> r.results[i] == ProcessMeal(query.rows.value[i], removeOk, updateOk)
    ensures r.deletedCount == CountCleaned(r.results)
    ensures r.deletedCount + r.errorCount == |r.results|
  {
    if !ShouldRunCleanup(stored, parseDate, now) || user.None? {
      return Report(false, [], 0, 0, false);
    }
    if query.QueryFailed? {
      return Report(true, [], 0, 0, false);
    }
    if query.rows.None? || |query.rows.value| == 0 {
      return Report(true, [], 0, 0, true);
    }
    var rows := query.rows.value;
    var results: seq<MealCleanup> := [];
    var deleted: nat := 0;
    var errors: nat := 0;
    var i := 0;
    while i < |rows|
      invariant 0 <= i <= |rows|
      invariant |results| == i
      invariant forall j :: 0 <= j < i ==> results[j] == ProcessMeal(rows[j], removeOk, updateOk)
      invariant deleted == CountCleaned(results)
      invariant deleted + errors == i
    {
      var outcome := ProcessMeal(rows[i], removeOk, updateOk);
      assert (results + [outcome])[..i] == results;
      results := results + [outcome];
      if outcome.Cleaned? {
        deleted := deleted + 1;
      } else {
        errors := errors + 1;
      }
      i := i + 1;
    }
    r := Report(true, results, deleted, errors, true);
  }
}
