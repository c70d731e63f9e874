/**
 * script.py: `download_latest_media` picks the newest movies or shows of a
 * Plex library, by air date or by date added, and saves a captioned copy of
 * each one's art as `<media_type>_backgrounds/<title>_background.jpg`.
 *
 * The library search is an input (the movies and the shows it would return),
 * dates are integer sort keys, and what the request for an art URL gives (an
 * HTTP status, or an exception) is a parameter; so is whether the rest of the
 * try block (writing the file, drawing on it, saving it) goes through. The
 * module-level settings the function reads as globals are passed explicitly.
 */
module PlexLatest {
  import opened Python
  import opened StableSort

  /** A library item: its title, its two dates as sort keys, and its art URL (possibly null). */
  datatype Item = Item(title: string, originallyAvailableAt: int, addedAt: int, artUrl: Option<string>)

  datatype Library = Library(movies: seq<Item>, shows: seq<Item>)

  /** The module-level switches `download_movies` and `download_series`. */
  datatype Settings = Settings(downloadMovies: bool, downloadSeries: bool)

  /** The module-level defaults: order by air date, three items. */
  const DefaultOrderBy := "aired"
  const DefaultLimit := 3

  datatype OrderBy = Aired | Added

  /** Only "aired" and "added" name an ordering. */
  function ParseOrderBy(orderBy: string): (r: Option<OrderBy>)
    ensures r == Some(Aired) <==> orderBy == "aired"
    ensures r == Some(Added) <==> orderBy == "added"
    ensures r == None <==> orderBy != "aired" && orderBy != "added"
  {
    if orderBy == "aired" then Some(Aired)
    else if orderBy == "added" then Some(Added)
    else None
  }

  /** The sort key each ordering reads. */
  function Key(order: OrderBy, item: Item): int
  {
    match order
    case Aired => item.originallyAvailableAt
    case Added => item.addedAt
  }

  function KeyOf(order: OrderBy): Item -> int
  {
    x => Key(order, x)
  }

  /**
   * The media-type branch: 'movie' searches the movies if movies are switched
   * on, 'tv' the shows if series are; anything else is refused.
   */
  function MediaItems(settings: Settings, library: Library, mediaType: string): (r: Option<seq<Item>>)
    ensures r.Some? <==> (mediaType == "movie" && settings.downloadMovies) || (mediaType == "tv" && settings.downloadSeries)
    ensures r.Some? && mediaType == "movie" ==> r.value == library.movies
    ensures r.Some? && mediaType == "tv" ==> r.value == library.shows
  {
    if mediaType == "movie" && settings.downloadMovies then Some(library.movies)
    else if mediaType == "tv" && settings.downloadSeries then Some(library.shows)
    else None
  }

  /** `sorted(media_items, key=..., reverse=True)[:limit]` */
  function Select(items: seq<Item>, order: OrderBy, limit: int): seq<Item>
  {
    TopK(items, KeyOf(order), limit)
  }

  /**
   * The items processed: `min(limit, |items|)` of them (for a non-negative
   * limit), all from the library and none twice, newest first; nothing left
   * out is newer than anything kept; items with the same date keep their
   * library order.
   */
  lemma SelectSpec(items: seq<Item>, order: OrderBy, limit: int)
    ensures var sel := Select(items, order, limit);
            && (limit >= 0 ==> |sel| == Min(limit, |items|))
            && multiset(sel) <= multiset(items)
            && (forall i, j :: 0 <= i < j < |sel| ==> Key(order, sel[i]) >= Key(order, sel[j]))
            && (forall x, i | x in multiset(items) - multiset(sel) && 0 <= i < |sel| :: Key(order, x) <= Key(order, sel[i]))
            && (forall k :: WithKey(sel, KeyOf(order), k) <= WithKey(items, KeyOf(order), k))
  {
    TopKSpec(items, KeyOf(order), limit);
  }

  /** `f"{media_type}_backgrounds"` */
  function BackgroundDir(mediaType: string): string
  {
    mediaType + "_backgrounds"
  }

  /** `item.title.replace(':', '_')` */
  function SafeTitle(title: string): string
  {
    ReplaceChar(title, ':', '_')
  }

  /**
   * The safe title has the title's length, no ':' and every other character
   * where it was; '/' in particular is kept.
   */
  lemma SafeTitleSpec(title: string)
    ensures |SafeTitle(title)| == |title|
    ensures ':' !in SafeTitle(title)
    ensures forall i :: 0 <= i < |title| && title[i] != ':' ==> SafeTitle(title)[i] == title[i]
    ensures '/' in title ==> '/' in SafeTitle(title)
  {
    var s := SafeTitle(title);
    assert forall i :: 0 <= i < |s| ==> s[i] != ':';
    if '/' in title {
      var i :| 0 <= i < |title| && title[i] == '/';
      assert s[i] == '/';
    }
  }

  /** The path script.py writes: `os.path.join(background_dir, f"{filename_safe_title}_background.jpg")`. */
  function BackgroundFilenameAsWritten(mediaType: string, title: string): string
  {
    PathJoin(BackgroundDir(mediaType), SafeTitle(title) + "_background.jpg")
  }

  /**
   * As written, a title holding '/' (such as "Face/Off") does not become the
   * name of a file in the backgrounds folder: the last component of the path
   * is only what follows its last '/'.
   */
  lemma AsWrittenSplitsOnSlash(mediaType: string, title: string)
    requires '/' in title
    ensures FileName(BackgroundFilenameAsWritten(mediaType, title)) != SafeTitle(title) + "_background.jpg"
  {
    SafeTitleSpec(title);
    var name := SafeTitle(title) + "_background.jpg";
    var i :| 0 <= i < |SafeTitle(title)| && SafeTitle(title)[i] == '/';
    assert name[i] == '/';
  }

  /** As written, a title starting with '/' gives an absolute path outside the folder. */
  lemma AsWrittenEscapesFolder(mediaType: string, title: string)
    requires |title| > 0 && title[0] == '/'
    ensures BackgroundFilenameAsWritten(mediaType, title) == SafeTitle(title) + "_background.jpg"
    ensures BackgroundFilenameAsWritten(mediaType, title)[0] == '/'
  {
    SafeTitleSpec(title);
    JoinAbsolute(BackgroundDir(mediaType), SafeTitle(title) + "_background.jpg");
  }

  /** The safe title with '/' also replaced by '_'. */
  function FileSafeTitle(title: string): (r: string)
    ensures |r| == |title|
    ensures forall i :: 0 <= i < |title| ==>
              r[i] == if title[i] == ':' || title[i] == '/' then '_' else title[i]
  {
    ReplaceChar(SafeTitle(title), '/', '_')
  }

  /** The path with both ':' and '/' replaced. */
  function BackgroundFilename(mediaType: string, title: string): string
  {
    PathJoin(BackgroundDir(mediaType), FileSafeTitle(title) + "_background.jpg")
  }

  /**
   * Corrected, every art is saved directly in `<media_type>_backgrounds`, under
   * the title with ':' and '/' replaced and "_background.jpg" appended.
   */
  lemma BackgroundFilenameInFolder(mediaType: string, title: string)
    ensures BackgroundFilename(mediaType, title) == BackgroundDir(mediaType) + "/" + FileSafeTitle(title) + "_background.jpg"
    ensures Parent(BackgroundFilename(mediaType, title)) == BackgroundDir(mediaType)
    ensures FileName(BackgroundFilename(mediaType, title)) == FileSafeTitle(title) + "_background.jpg"
  {
    var safe := FileSafeTitle(title);
    var name := safe + "_background.jpg";
    assert '/' !in name by {
      forall i | 0 <= i < |name| ensures name[i] != '/' {
        if i < |safe| {
          assert name[i] == safe[i];
        }
      }
    }
    JoinSplit(BackgroundDir(mediaType), name);
  }

  /** The corrected path agrees with the written one whenever the title has no '/'. */
  lemma BackgroundFilenameAgrees(mediaType: string, title: string)
    requires '/' !in title
    ensures FileSafeTitle(title) == SafeTitle(title)
    ensures BackgroundFilename(mediaType, title) == BackgroundFilenameAsWritten(mediaType, title)
  {
    assert FileSafeTitle(title) == SafeTitle(title);
  }

  /** What the loop reports for one item. */
  datatype ItemOutcome =
    | NoBackground(title: string)
    | DownloadFailed(title: string)
    | Errored(title: string)
    | Saved(title: string, path: string)

  /**
   * One iteration of the item loop, given what each art URL answers and
   * whether writing, drawing and saving at a path goes through (everything
   * after the 200 check runs inside the same try block, so its failure is
   * reported like a failed request). The art is saved at the path script.py
   * builds; for a title without '/' that is directly in the backgrounds
   * folder under the safe title, and for one with '/' it is not.
   */
  function ItemOutcomeOf(mediaType: string, item: Item, fetch: string -> Fetch, written: string -> bool): (o: ItemOutcome)
    ensures o.title == item.title
    ensures o.NoBackground? <==> !Truthy(item.artUrl)
    ensures o.DownloadFailed? <==>
              Truthy(item.artUrl) && fetch(item.artUrl.value).Status? && fetch(item.artUrl.value).code != 200
    ensures o.Saved? <==>
              Truthy(item.artUrl) && fetch(item.artUrl.value) == Status(200)
              && written(BackgroundFilenameAsWritten(mediaType, item.title))
    ensures o.Saved? ==> o.path == BackgroundFilenameAsWritten(mediaType, item.title)
    ensures o.Saved? && '/' !in item.title ==>
              Parent(o.path) == BackgroundDir(mediaType) && FileName(o.path) == SafeTitle(item.title) + "_background.jpg"
    ensures o.Saved? && '/' in item.title ==> FileName(o.path) != SafeTitle(item.title) + "_background.jpg"
  {
    if !Truthy(item.artUrl) then NoBackground(item.title)
    else match fetch(item.artUrl.value)
      case Raised => Errored(item.title)
      case Status(code) =>
        if code != 200 then DownloadFailed(item.title)
        else if !written(BackgroundFilenameAsWritten(mediaType, item.title)) then Errored(item.title)
        else if '/' in item.title then
          AsWrittenSplitsOnSlash(mediaType, item.title);
          Saved(item.title, BackgroundFilenameAsWritten(mediaType, item.title))
        else
          BackgroundFilenameAgrees(mediaType, item.title);
          BackgroundFilenameInFolder(mediaType, item.title);
          Saved(item.title, BackgroundFilenameAsWritten(mediaType, item.title))
  }

  /** The body of the item loop for one item. */
  method ProcessItem(mediaType: string, item: Item, fetch: string -> Fetch, written: string -> bool)
    returns (outcome: ItemOutcome)
    ensures outcome == ItemOutcomeOf(mediaType, item, fetch, written)
  {
    if Truthy(item.artUrl) {
      var response := fetch(item.artUrl.value);
      if response == Status(200) {
        var safeTitle := SafeTitle(item.title);
        var backgroundFilename := PathJoin(BackgroundDir(mediaType), safeTitle + "_background.jpg");
        if written(backgroundFilename) {
          outcome := Saved(item.title, backgroundFilename);
        } else {
          outcome := Errored(item.title);
        }
      } else if response.Raised? {
        outcome := Errored(item.title);
      } else {
        outcome := DownloadFailed(item.title);
      }
    } else {
      outcome := NoBackground(item.title);
    }
  }

  /** `for item in media_sorted[:limit]`: one outcome per selected item, in order. */
  method ProcessSelected(mediaType: string, selected: seq<Item>, fetch: string -> Fetch, written: string -> bool)
    returns (outcomes: seq<ItemOutcome>)
    ensures |outcomes| == |selected|
    ensures forall i :: 0 <= i < |selected| ==> outcomes[i] == ItemOutcomeOf(mediaType, selected[i], fetch, written)
  {
    outcomes := [];
    var i := 0;
    while i < |selected|
      invariant 0 <= i <= |selected|
      invariant |outcomes| == i
      invariant forall j :: 0 <= j < i ==> outcomes[j] == ItemOutcomeOf(mediaType, selected[j], fetch, written)
    {
      var outcome := ProcessItem(mediaType, selected[i], fetch, written);
      outcomes := outcomes + [outcome];
      i := i + 1;
    }
  }

  /** The result of one call of `download_latest_media`. */
  datatype Run = InvalidMediaType | InvalidOrderBy | Processed(outcomes: seq<ItemOutcome>)

  /**
   * download_latest_media: refuse an unknown or switched-off media type, then
   * an unknown ordering; otherwise sort newest first, keep `limit` items and
   * process each in turn.
   */
  method DownloadLatestMedia(settings: Settings, library: Library, orderBy: string, limit: int,
                             mediaType: string, fetch: string -> Fetch, written: string -> bool)
    returns (run: Run)
    ensures run == InvalidMediaType <==> MediaItems(settings, library, mediaType).None?
    ensures run == InvalidOrderBy <==> MediaItems(settings, library, mediaType).Some? && ParseOrderBy(orderBy).None?
    ensures run.Processed? ==>
              var sel := Select(MediaItems(settings, library, mediaType).value, ParseOrderBy(orderBy).value, limit);
              && |run.outcomes| == |sel|
              && forall i :: 0 <= i < |sel| ==> run.outcomes[i] == ItemOutcomeOf(mediaType, sel[i], fetch, written)
  {
    var mediaItems;
    if mediaType == "movie" && settings.downloadMovies {
      mediaItems := library.movies;
    } else if mediaType == "tv" && settings.downloadSeries {
      mediaItems := library.shows;
    } else {
      return InvalidMediaType;
    }

    var order;
    if orderBy == "aired" {
      order := Aired;
    } else if orderBy == "added" {
      order := Added;
    } else {
      return InvalidOrderBy;
    }

    var selected := Select(mediaItems, order, limit);
    var outcomes := ProcessSelected(mediaType, selected, fetch, written);
    run := Processed(outcomes);
  }

  /**
   * The script's last lines: movies, then series, each only when switched on,
   * with the module-level ordering and limit. A call that is made is never
   * refused, and it processes at most `limit` items.
   */
  method RunScript(settings: Settings, library: Library, fetch: string -> Fetch, written: string -> bool)
    returns (movieRun: Option<Run>, tvRun: Option<Run>)
    ensures movieRun.Some? <==> settings.downloadMovies
    ensures tvRun.Some? <==> settings.downloadSeries
    ensures movieRun.Some? ==>
              var sel := Select(library.movies, Aired, DefaultLimit);
              && movieRun.value.Processed?
              && |movieRun.value.outcomes| == |sel| == Min(DefaultLimit, |library.movies|)
              && forall i :: 0 <= i < |sel| ==> movieRun.value.outcomes[i] == ItemOutcomeOf("movie", sel[i], fetch, written)
    ensures tvRun.Some? ==>
              var sel := Select(library.shows, Aired, DefaultLimit);
              && tvRun.value.Processed?
              && |tvRun.value.outcomes| == |sel| == Min(DefaultLimit, |library.shows|)
              && forall i :: 0 <= i < |sel| ==> tvRun.value.outcomes[i] == ItemOutcomeOf("tv", sel[i], fetch, written)
  {
    movieRun, tvRun := None, None;
    if settings.downloadMovies {
      var run := DownloadLatestMedia(settings, library, DefaultOrderBy, DefaultLimit, "movie", fetch, written);
      SelectSpec(library.movies, Aired, DefaultLimit);
      movieRun := Some(run);
    }
    if settings.downloadSeries {
      var run := DownloadLatestMedia(settings, library, DefaultOrderBy, DefaultLimit, "tv", fetch, written);
      SelectSpec(library.shows, Aired, DefaultLimit);
      tvRun := Some(run);
    }
  }
}
