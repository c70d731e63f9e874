/**
 * TMDB.py: the text that goes on each trending wallpaper and the name of the
 * file it is saved under. The script walks the 'results' of the trending
 * movies and then of the trending TV shows; for every record with a backdrop it
 * fetches the image and, when the fetch answers 200, draws the title, the
 * overview, the fixed caption and the info line and saves the picture as
 * `tmdb_backgrounds/<cleaned title>.jpg`.
 *
 * The HTTP status a backdrop URL answers is a parameter; the fields the
 * script keeps in globals between the loop and `process_image` are passed
 * explicitly, bundled in a Plan.
 */
module Tmdb {
  import opened Python

  const BackgroundDir := "tmdb_backgrounds"
  const ImageBaseUrl := "https://image.tmdb.org/t/p/original"
  const CustomText := "Now Trending on TMDB"
  const OverviewChars := 130
  const TvTitleChars := 38
  const YearChars := 7
  const InfoSeparator := "  |   TMDB: "

  /**
   * truncate_overview: a text longer than `maxChars` is cut to `maxChars - 3`
   * characters (Python slice semantics) and gets "..." appended.
   */
  function TruncateOverview(overview: string, maxChars: int): (r: string)
    ensures |overview| <= maxChars ==> r == overview
    ensures |overview| > maxChars && maxChars >= 3 ==>
              |r| == maxChars && r[..maxChars - 3] == overview[..maxChars - 3] && r[maxChars - 3..] == "..."
  {
    if |overview| > maxChars then SliceTo(overview, maxChars - 3) + "..." else overview
  }

  /**
   * The result fits in `maxChars` exactly when the text already did or the
   * limit leaves room for the ellipsis: below 3, Python's negative slice keeps
   * too much and the "..." alone is already too long.
   */
  lemma TruncateOverviewFits(overview: string, maxChars: int)
    ensures |TruncateOverview(overview, maxChars)| <= maxChars <==> |overview| <= maxChars || maxChars >= 3
  {
  }

  /** For a limit of at least 3, a second truncation changes nothing. */
  lemma TruncateOverviewIdempotent(overview: string, maxChars: int)
    requires maxChars >= 3
    ensures TruncateOverview(TruncateOverview(overview, maxChars), maxChars) == TruncateOverview(overview, maxChars)
  {
    TruncateOverviewFits(overview, maxChars);
  }

  /** truncate: like truncate_overview but without the ellipsis. */
  function Truncate(overview: string, maxChars: int): (r: string)
    ensures r <= overview
    ensures |overview| <= maxChars ==> r == overview
    ensures |overview| > maxChars && maxChars >= 3 ==> |r| == maxChars - 3
  {
    if |overview| > maxChars then SliceTo(overview, maxChars - 3) else overview
  }

  /** The year shown on the info line: `truncate(str(year), 7)`. */
  function YearText(date: string): string
  {
    Truncate(date, YearChars)
  }

  /**
   * A date longer than 7 characters, such as "2024-05-01", is reduced to its
   * first four characters, the year; a date of at most 7 characters is shown
   * as it is.
   */
  lemma YearTextOfDate(date: string)
    ensures |date| > YearChars ==> YearText(date) == date[..4]
    ensures |date| <= YearChars ==> YearText(date) == date
  {
  }

  lemma YearTextExample()
    ensures YearText("2024-05-01") == "2024"
    ensures YearText("2024") == "2024"
  {
    YearTextOfDate("2024-05-01");
  }

  /** The info line: `f"{year_text}  |  {rating_text}"` with rating_text = " TMDB: " + rating. */
  function InfoLine(date: string, rating: string): string
  {
    var ratingText := " TMDB: " + rating;
    YearText(date) + "  |  " + ratingText
  }

  /**
   * The info line is the year part, then the fixed separator, then the
   * rating, and each can be read back at its position.
   */
  lemma InfoLineParts(date: string, rating: string)
    ensures var line := InfoLine(date, rating);
            var year := YearText(date);
            && |line| == |year| + |InfoSeparator| + |rating|
            && line[..|year|] == year
            && line[|year|..|year| + |InfoSeparator|] == InfoSeparator
            && line[|year| + |InfoSeparator|..] == rating
  {
    var year := YearText(date);
    assert InfoLine(date, rating) == year + InfoSeparator + rating;
  }

  /** Python's `isalnum`, restricted to ASCII letters and digits. */
  predicate IsAlnum(c: char)
  {
    ('a' <= c <= 'z') || ('A' <= c <= 'Z') || ('0' <= c <= '9')
  }

  /** The characters clean_filename keeps: alphanumerics and `.`, `_`, `-`. */
  predicate IsFileChar(c: char)
  {
    IsAlnum(c) || c == '.' || c == '_' || c == '-'
  }

  predicate AllFileChars(s: string)
  {
    forall i :: 0 <= i < |s| ==> IsFileChar(s[i])
  }

  /**
   * clean_filename: position by position, a character is kept when it is
   * alphanumeric or one of `._-` and replaced by '_' otherwise.
   */
  function CleanFilename(filename: string): (r: string)
    ensures |r| == |filename|
    ensures forall i :: 0 <= i < |filename| ==>
              r[i] == if IsFileChar(filename[i]) then filename[i] else '_'
  {
    if filename == [] then []
    else [if IsFileChar(filename[0]) then filename[0] else '_'] + CleanFilename(filename[1..])
  }

  /**
   * The cleaned name consists of file characters only, so it holds no '/' or
   * ':' and is a single path component.
   */
  lemma CleanFilenameSafe(filename: string)
    ensures AllFileChars(CleanFilename(filename))
    ensures '/' !in CleanFilename(filename) && ':' !in CleanFilename(filename)
  {
    var r := CleanFilename(filename);
    forall i | 0 <= i < |r| ensures IsFileChar(r[i]) && r[i] != '/' && r[i] != ':' {
    }
  }

  /** clean_filename leaves a name alone exactly when it has only file characters. */
  lemma CleanFilenameFixedPoint(filename: string)
    ensures CleanFilename(filename) == filename <==> AllFileChars(filename)
  {
    if CleanFilename(filename) == filename {
      forall i | 0 <= i < |filename| ensures IsFileChar(filename[i]) {
        assert CleanFilename(filename)[i] == filename[i];
      }
    }
  }

  /** Cleaning twice is cleaning once. */
  lemma CleanFilenameIdempotent(filename: string)
    ensures CleanFilename(CleanFilename(filename)) == CleanFilename(filename)
  {
    CleanFilenameSafe(filename);
    CleanFilenameFixedPoint(CleanFilename(filename));
  }

  /** Different titles may share a file: the later wallpaper overwrites the earlier one. */
  lemma CleanFilenameCollides()
    ensures CleanFilename("Face/Off") == CleanFilename("Face:Off") == "Face_Off"
  {
  }

  /** `os.path.join(background_dir, f"{clean_filename(title)}.jpg")` */
  function OutputPath(title: string): string
  {
    PathJoin(BackgroundDir, CleanFilename(title) + ".jpg")
  }

  /**
   * Every wallpaper is written directly into `tmdb_backgrounds`, under the
   * cleaned title with ".jpg" appended.
   */
  lemma OutputPathInFolder(title: string)
    ensures OutputPath(title) == BackgroundDir + "/" + CleanFilename(title) + ".jpg"
    ensures Parent(OutputPath(title)) == BackgroundDir
    ensures FileName(OutputPath(title)) == CleanFilename(title) + ".jpg"
  {
    var name := CleanFilename(title) + ".jpg";
    CleanFilenameSafe(title);
    assert '/' !in name by {
      forall i | 0 <= i < |name| ensures name[i] != '/' {
        if i < |CleanFilename(title)| {
          assert name[i] == CleanFilename(title)[i];
        }
      }
    }
    JoinSplit(BackgroundDir, name);
  }

  /** Which of the two result loops a record comes from. */
  datatype Kind = Movie | TvShow

  /**
   * One entry of 'results': `title` is the movie's 'title' or the show's 'name',
   * `date` its 'release_date' or 'first_air_date', `rating` the text of the
   * rounded 'vote_average', `backdropPath` its 'backdrop_path' (possibly null).
   */
  datatype Record = Record(title: string, overview: string, date: string, rating: string, backdropPath: Option<string>)

  /** What `process_image` draws and where it saves, for one record. */
  datatype Plan = Plan(imageUrl: string, title: string, overview: string, infoText: string, customText: string, path: string)

  /** TV show names are cut to 38 characters; movie titles are used in full. */
  function DisplayTitle(kind: Kind, title: string): string
  {
    match kind
    case Movie => title
    case TvShow => TruncateOverview(title, TvTitleChars)
  }

  /** The body of one loop iteration, up to the call of `process_image`. */
  function PlanFor(kind: Kind, rec: Record): (p: Option<Plan>)
    ensures p.None? <==> !Truthy(rec.backdropPath)
    ensures p.Some? ==>
              && p.value.imageUrl == ImageBaseUrl + rec.backdropPath.value
              && p.value.title == DisplayTitle(kind, rec.title)
              && p.value.overview == TruncateOverview(rec.overview, OverviewChars)
              && p.value.infoText == InfoLine(rec.date, rec.rating)
              && p.value.customText == CustomText
              && p.value.path == OutputPath(p.value.title)
  {
    if Truthy(rec.backdropPath) then
      var title := DisplayTitle(kind, rec.title);
      Some(Plan(ImageBaseUrl + rec.backdropPath.value, title, TruncateOverview(rec.overview, OverviewChars),
                InfoLine(rec.date, rec.rating), CustomText, OutputPath(title)))
    else None
  }

  /**
   * The texts of a plan respect the layout: the overview fits in 130
   * characters and a TV title in 38, each keeping the start of the original;
   * the file lies directly in `tmdb_backgrounds` and its name has only file
   * characters.
   */
  lemma PlanShape(kind: Kind, rec: Record)
    requires Truthy(rec.backdropPath)
    ensures var p := PlanFor(kind, rec).value;
            && |p.overview| <= OverviewChars
            && p.overview[..Min(|p.overview|, OverviewChars - 3)] == rec.overview[..Min(|p.overview|, OverviewChars - 3)]
            && (kind == TvShow ==> |p.title| <= TvTitleChars)
            && p.title[..Min(|p.title|, TvTitleChars - 3)] == rec.title[..Min(|p.title|, TvTitleChars - 3)]
            && Parent(p.path) == BackgroundDir
            && FileName(p.path) == CleanFilename(p.title) + ".jpg"
            && AllFileChars(CleanFilename(p.title))
  {
    var p := PlanFor(kind, rec).value;
    TruncateOverviewFits(rec.overview, OverviewChars);
    TruncateOverviewFits(rec.title, TvTitleChars);
    OutputPathInFolder(p.title);
    CleanFilenameSafe(p.title);
  }

  /**
   * What happens to one record: no backdrop, a download that answered with
   * another status than 200, a saved image, or an exception that ends the
   * script (the image request raised, or the drawing and saving after a 200 did).
   */
  datatype Outcome = NoBackdrop(title: string) | DownloadFailed(title: string) | Crashed(title: string) | Saved(plan: Plan)

  /**
   * One iteration of a result loop, given what each image URL answers and
   * whether drawing and saving a plan goes through (the font download, the
   * decoding of the image and the write can each raise).
   */
  function RecordOutcome(kind: Kind, rec: Record, fetch: string -> Fetch, rendered: Plan -> bool): (o: Outcome)
    ensures o.NoBackdrop? <==> !Truthy(rec.backdropPath)
    ensures o.DownloadFailed? <==>
              Truthy(rec.backdropPath) && fetch(ImageBaseUrl + rec.backdropPath.value).Status?
              && fetch(ImageBaseUrl + rec.backdropPath.value).code != 200
    ensures o.Saved? <==>
              Truthy(rec.backdropPath) && fetch(ImageBaseUrl + rec.backdropPath.value) == Status(200)
              && rendered(PlanFor(kind, rec).value)
    ensures o.Saved? ==> Some(o.plan) == PlanFor(kind, rec) && Parent(o.plan.path) == BackgroundDir
    ensures !o.Saved? ==> o.title == DisplayTitle(kind, rec.title)
  {
    match PlanFor(kind, rec)
    case None => NoBackdrop(DisplayTitle(kind, rec.title))
    case Some(p) =>
      match fetch(p.imageUrl)
      case Raised => Crashed(p.title)
      case Status(code) =>
        if code != 200 then DownloadFailed(p.title)
        else if rendered(p) then
          OutputPathInFolder(p.title);
          Saved(p)
        else Crashed(p.title)
  }

  /** `response.get('results', [])` */
  function Results(response: Option<seq<Record>>): seq<Record>
  {
    if response.Some? then response.value else []
  }

  /**
   * The body of a result loop for one record: set the texts, then, when there
   * is a backdrop, the work of `process_image`.
   */
  method ProcessRecord(kind: Kind, rec: Record, fetch: string -> Fetch, rendered: Plan -> bool)
    returns (outcome: Outcome)
    ensures outcome == RecordOutcome(kind, rec, fetch, rendered)
  {
    var title := DisplayTitle(kind, rec.title);
    var overview := TruncateOverview(rec.overview, OverviewChars);
    if Truthy(rec.backdropPath) {
      var imageUrl := ImageBaseUrl + rec.backdropPath.value;
      var response := fetch(imageUrl);
      if response.Raised? {
        outcome := Crashed(title);
      } else if response.code == 200 {
        var plan := Plan(imageUrl, title, overview, InfoLine(rec.date, rec.rating), CustomText, OutputPath(title));
        if rendered(plan) {
          outcome := Saved(plan);
        } else {
          outcome := Crashed(title);
        }
      } else {
        outcome := DownloadFailed(title);
      }
    } else {
      outcome := NoBackdrop(title);
    }
  }

  /** The set of paths the saved outcomes were written to. */
  function SavedSet(outcomes: seq<Outcome>): set<string>
  {
    set i | 0 <= i < |outcomes| && outcomes[i].Saved? :: outcomes[i].plan.path
  }

  /** Handling one more record adds its path to the folder when it was saved, and nothing else. */
  lemma SavedSetAppend(outcomes: seq<Outcome>, o: Outcome)
    ensures SavedSet(outcomes + [o]) == SavedSet(outcomes) + (if o.Saved? then {o.plan.path} else {})
  {
    var s := outcomes + [o];
    forall p | p in SavedSet(s) ensures p in SavedSet(outcomes) + (if o.Saved? then {o.plan.path} else {}) {
      var i :| 0 <= i < |s| && s[i].Saved? && s[i].plan.path == p;
      if i < |outcomes| {
        assert outcomes[i] == s[i];
      }
    }
    forall p | p in SavedSet(outcomes) ensures p in SavedSet(s) {
      var i :| 0 <= i < |outcomes| && outcomes[i].Saved? && outcomes[i].plan.path == p;
      assert s[i] == outcomes[i];
    }
    if o.Saved? {
      assert s[|outcomes|] == o;
    }
  }

  /** A run ends early exactly when its last outcome is an exception, and no earlier one is. */
  predicate StopsOnlyAtCrash(outcomes: seq<Outcome>, total: int)
  {
    && (forall i :: 0 <= i < |outcomes| - 1 ==> !outcomes[i].Crashed?)
    && (|outcomes| < total ==> outcomes != [] && outcomes[|outcomes| - 1].Crashed?)
  }

  /** None of the outcomes is an exception. */
  predicate NoCrash(outcomes: seq<Outcome>)
  {
    forall i :: 0 <= i < |outcomes| ==> !outcomes[i].Crashed?
  }

  lemma NoCrashAppend(outcomes: seq<Outcome>, o: Outcome)
    requires NoCrash(outcomes)
    ensures NoCrash(outcomes + [o]) <==> !o.Crashed?
    ensures StopsOnlyAtCrash(outcomes + [o], |outcomes| + 1)
  {
    assert (outcomes + [o])[|outcomes|] == o;
  }

  /** `outcomes` are those of the first `|outcomes|` records, in order. */
  predicate Handled(kind: Kind, records: seq<Record>, outcomes: seq<Outcome>, fetch: string -> Fetch, rendered: Plan -> bool)
  {
    && |outcomes| <= |records|
    && forall i :: 0 <= i < |outcomes| ==> outcomes[i] == RecordOutcome(kind, records[i], fetch, rendered)
  }

  lemma HandledAppend(kind: Kind, records: seq<Record>, outcomes: seq<Outcome>, fetch: string -> Fetch, rendered: Plan -> bool)
    requires Handled(kind, records, outcomes, fetch, rendered) && |outcomes| < |records|
    ensures Handled(kind, records, outcomes + [RecordOutcome(kind, records[|outcomes|], fetch, rendered)], fetch, rendered)
  {
  }

  /**
   * One result loop over the records in order, one outcome each, writing
   * into `folder` (the set of files in the backgrounds folder). An exception
   * ends the loop, and the script with it.
   */
  method ProcessResults(kind: Kind, records: seq<Record>, fetch: string -> Fetch, rendered: Plan -> bool, folder: set<string>)
    returns (outcomes: seq<Outcome>, folderAfter: set<string>)
    ensures Handled(kind, records, outcomes, fetch, rendered)
    ensures StopsOnlyAtCrash(outcomes, |records|)
    ensures folderAfter == folder + SavedSet(outcomes)
  {
    outcomes := [];
    folderAfter := folder;
    var i := 0;
    while i < |records|
      invariant 0 <= i <= |records|
      invariant |outcomes| == i
      invariant Handled(kind, records, outcomes, fetch, rendered)
      invariant NoCrash(outcomes)
      invariant folderAfter == folder + SavedSet(outcomes)
    {
      var outcome := ProcessRecord(kind, records[i], fetch, rendered);
      HandledAppend(kind, records, outcomes, fetch, rendered);
      SavedSetAppend(outcomes, outcome);
      NoCrashAppend(outcomes, outcome);
      outcomes := outcomes + [outcome];
      if outcome.Saved? {
        folderAfter := folderAfter + {outcome.plan.path};
      }
      if outcome.Crashed? {
        return;
      }
      i := i + 1;
    }
  }

  /**
   * The whole script after the two list requests: the backgrounds folder is
   * emptied, then the trending movies are handled and, unless one of them
   * ended the script, the trending TV shows. The outcomes are those of the
   * movies in order, then those of the shows; the folder ends up holding
   * exactly the paths of the saved outcomes, all of them directly inside it.
   */
  method RunTrending(movies: Option<seq<Record>>, tvShows: Option<seq<Record>>,
                     fetch: string -> Fetch, rendered: Plan -> bool)
    returns (outcomes: seq<Outcome>, folder: set<string>)
    ensures var n := Min(|outcomes|, |Results(movies)|);
            && Handled(Movie, Results(movies), outcomes[..n], fetch, rendered)
            && Handled(TvShow, Results(tvShows), outcomes[n..], fetch, rendered)
            && (n < |Results(movies)| ==> n == |outcomes|)
    ensures StopsOnlyAtCrash(outcomes, |Results(movies)| + |Results(tvShows)|)
    ensures folder == SavedSet(outcomes)
    ensures forall p :: p in folder ==> Parent(p) == BackgroundDir
  {
    var ms, ts := Results(movies), Results(tvShows);
    var movieOutcomes, afterMovies := ProcessResults(Movie, ms, fetch, rendered, {});
    HandledInFolder(Movie, ms, movieOutcomes, fetch, rendered);
    if movieOutcomes != [] && movieOutcomes[|movieOutcomes| - 1].Crashed? {
      outcomes, folder := movieOutcomes, afterMovies;
      HandledSplit(ms, ts, movieOutcomes, [], fetch, rendered);
    } else {
      RanThrough(movieOutcomes, |ms|);
      var tvOutcomes, afterShows := ProcessResults(TvShow, ts, fetch, rendered, afterMovies);
      HandledInFolder(TvShow, ts, tvOutcomes, fetch, rendered);
      outcomes, folder := movieOutcomes + tvOutcomes, afterShows;
      HandledSplit(ms, ts, movieOutcomes, tvOutcomes, fetch, rendered);
      SavedSetConcat(movieOutcomes, tvOutcomes);
      StopsOnlyAtCrashConcat(movieOutcomes, tvOutcomes, |ts|);
    }
  }

  /**
   * The movie outcomes followed by the TV outcomes split back at the number
   * of movies handled, when the TV loop ran only after every movie.
   */
  lemma HandledSplit(movies: seq<Record>, tvShows: seq<Record>, a: seq<Outcome>, b: seq<Outcome>,
                     fetch: string -> Fetch, rendered: Plan -> bool)
    requires Handled(Movie, movies, a, fetch, rendered) && Handled(TvShow, tvShows, b, fetch, rendered)
    requires b != [] ==> |a| == |movies|
    ensures var n := Min(|a + b|, |movies|);
            && Handled(Movie, movies, (a + b)[..n], fetch, rendered)
            && Handled(TvShow, tvShows, (a + b)[n..], fetch, rendered)
            && (n < |movies| ==> n == |a + b|)
  {
    var n := Min(|a + b|, |movies|);
    assert n == |a|;
    assert (a + b)[..n] == a && (a + b)[n..] == b;
  }

  /** Every path a loop saved to lies directly inside the backgrounds folder. */
  lemma HandledInFolder(kind: Kind, records: seq<Record>, outcomes: seq<Outcome>, fetch: string -> Fetch, rendered: Plan -> bool)
    requires Handled(kind, records, outcomes, fetch, rendered)
    ensures forall p :: p in SavedSet(outcomes) ==> Parent(p) == BackgroundDir
  {
    forall p | p in SavedSet(outcomes) ensures Parent(p) == BackgroundDir {
      var i :| 0 <= i < |outcomes| && outcomes[i].Saved? && outcomes[i].plan.path == p;
      assert outcomes[i] == RecordOutcome(kind, records[i], fetch, rendered);
    }
  }

  /** A loop whose last outcome is not an exception handled every record without one. */
  lemma RanThrough(outcomes: seq<Outcome>, total: int)
    requires StopsOnlyAtCrash(outcomes, total)
    requires outcomes == [] || !outcomes[|outcomes| - 1].Crashed?
    ensures |outcomes| >= total
    ensures forall i :: 0 <= i < |outcomes| ==> !outcomes[i].Crashed?
  {
  }

  /** A full first run followed by a second one stops only where the second does. */
  lemma StopsOnlyAtCrashConcat(a: seq<Outcome>, b: seq<Outcome>, total: int)
    requires forall i :: 0 <= i < |a| ==> !a[i].Crashed?
    requires StopsOnlyAtCrash(b, total)
    ensures StopsOnlyAtCrash(a + b, |a| + total)
  {
    var s := a + b;
    forall i | 0 <= i < |s| - 1 ensures !s[i].Crashed? {
      if i >= |a| {
        assert s[i] == b[i - |a|];
      }
    }
    if |s| < |a| + total {
      assert s[|s| - 1] == b[|b| - 1];
    }
  }

  /** The folder after two runs of writes holds the paths of both. */
  lemma SavedSetConcat(a: seq<Outcome>, b: seq<Outcome>)
    ensures SavedSet(a + b) == SavedSet(a) + SavedSet(b)
  {
    var s := a + b;
    forall p | p in SavedSet(s) ensures p in SavedSet(a) + SavedSet(b) {
      var i :| 0 <= i < |s| && s[i].Saved? && s[i].plan.path == p;
      if i < |a| {
        assert a[i] == s[i];
      } else {
        assert b[i - |a|] == s[i];
      }
    }
    forall p | p in SavedSet(a) ensures p in SavedSet(s) {
      var i :| 0 <= i < |a| && a[i].Saved? && a[i].plan.path == p;
      assert s[i] == a[i];
    }
    forall p | p in SavedSet(b) ensures p in SavedSet(s) {
      var i :| 0 <= i < |b| && b[i].Saved? && b[i].plan.path == p;
      assert s[|a| + i] == b[i];
    }
  }
}
