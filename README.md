# androidtvbackground — the text and file-naming logic of the wallpaper scripts

The repository's two scripts build wallpapers for an Android TV screensaver.

- `TMDB.py` goes through the trending movies and then the trending TV shows of
  The Movie Database. It shortens each record's texts (the overview to 130
  characters, a show's name to 38, the release date to its year). It builds the
  info line `"<year>  |   TMDB: <rating>"` and the backdrop URL. For each record
  that has a backdrop and whose image fetch answers 200, it saves the picture as
  `tmdb_backgrounds/<clean_filename(title)>.jpg`.
- `script.py` (`download_latest_media`) first checks the media type and the
  ordering. It then sorts a Plex library newest first, by air date or by date
  added, and keeps the first `limit` items. It saves each item's art as
  `<media_type>_backgrounds/<title with ':' → '_'>_background.jpg`.

This project models that logic in Dafny and proves what it promises:

- length bounds, prefixes and idempotence of the truncations;
- the character classes and idempotence of the file-name cleaning;
- that every TMDB.py file, and every script.py file whose title has no `/`,
  lands directly in its folder;
- the early returns of the validation;
- that the selection is a stable top-`limit`.

Modules:

- `Python` (python.dfy): the Python behaviour both scripts rely on. This is
  `s[:k]` for any integer `k`, `str.replace` of one character, and POSIX
  `os.path.join` with the split at the last `/`.
- `StableSort` (stable_sort.dfy): `sorted(..., reverse=True)[:limit]`.
- `Tmdb` (tmdb.dfy): TMDB.py. The pure text and path functions are functions.
  The two result loops are a method, `ProcessResults`.
- `PlexLatest` (plex_latest.dfy): script.py. The branches and the selection
  are functions. `download_latest_media` and its item loop are a method.

Inputs from outside are parameters:

- the API's result lists, as `Option<seq<Record>>` (`None` when 'results' is
  missing);
- the library search results;
- what each image URL answers: an HTTP status, or an exception;
- whether the work after a 200 goes through: in TMDB.py the drawing and
  saving of a plan (`rendered`), in script.py the writing and drawing at the
  item's path (`written`).

TMDB.py keeps `title`, `overview`, `year`, `rating` and `custom_text` in
globals, and `process_image` reads them. Here they are passed explicitly in a
`Plan`. script.py's module-level `download_movies`, `download_series`,
`order_by` and `limit` are passed as `Settings` and arguments.

Neither script skips files that are already on disk, and neither compares
the folder with the lists:

- TMDB.py empties `tmdb_backgrounds` at the start of every run, so the folder
  ends up holding exactly the files of this run (`Tmdb.RunTrending`).
- script.py overwrites files and never deletes any.

## Model

| member | source | states |
|---|---|---|
| `Python.SliceTo` | TMDB.py:44 | Python's `s[:k]`: the first `min(k, len)` elements for `k >= 0`; for negative `k`, all but the last `-k`, or nothing. |
| `Python.ReplaceChar` | script.py:60 | `str.replace` of one character: same length; each position holds `to` where the input had `from`, and is unchanged elsewhere. |
| `Python.JoinSplit` | TMDB.py:135 | `Python.PathJoin` models `os.path.join`: `os.path.join(dir, name)` with a `/`-free name and a folder not ending in `/` is `dir + "/" + name`. Splitting it at its last `/` gives back `dir` and `name`. |
| `Python.JoinAbsolute` | script.py:62 | `Python.PathJoin`, i.e. `os.path.join`, with an absolute second part discards the folder. |
| `StableSort.Insert` | script.py:42-44 | Insertion adds exactly the one element (multiset), and the result starts with it or with the old first element. |
| `StableSort.InsertSorted` | script.py:42-44 | Insertion into a non-increasing sequence keeps it non-increasing. |
| `StableSort.SortDesc` | script.py:42-44 | `sorted(..., reverse=True)` gives a permutation of the input that is non-increasing in the key. |
| `StableSort.InsertWithKey` | script.py:42-44 | The inserted element precedes every element it ties with. |
| `StableSort.SortDescStable` | script.py:42-44 | Stability: for every key value, the items with that key appear in the sorted output in their input order. |
| `StableSort.TopKBound` | script.py:42-49 | No item left out of `[:limit]` has a larger key than a selected one. |
| `StableSort.TopKStable` | script.py:42-49 | Among equal keys, the selected items are the first ones in input order, in that order. |
| `StableSort.TopKSpec` | script.py:42-49 | The selection has `min(limit, len)` items for `limit >= 0` (Python's slice rule otherwise). They come from the input with none used twice, are non-increasing, bound every item left out, and are stable. |
| `Tmdb.TruncateOverview` | TMDB.py:42-46 | A text that fits is returned unchanged. A longer one, for a limit `n >= 3`, has length exactly `n`: its first `n-3` characters are the input's, followed by "...". |
| `Tmdb.TruncateOverviewFits` | TMDB.py:42-46 | The result fits in `n` if and only if the text already fits or `n >= 3`. |
| `Tmdb.TruncateOverviewIdempotent` | TMDB.py:42-46 | For `n >= 3`, truncating twice equals truncating once. |
| `Tmdb.Truncate` | TMDB.py:49-53 | The result is a prefix of the input. It is unchanged when the input fits, and of length `n-3` (no ellipsis) when it does not and `n >= 3`. |
| `Tmdb.YearTextOfDate` | TMDB.py:126 | `Tmdb.YearText` is `truncate(str(year), 7)`: it keeps the first 4 characters of a date longer than 7, such as "2024-05-01", and shows a date of at most 7 characters as is. |
| `Tmdb.YearTextExample` | TMDB.py:126 | "2024-05-01" is shown as "2024"; "2024" stays "2024". |
| `Tmdb.InfoLineParts` | TMDB.py:125-127 | The info line `Tmdb.InfoLine` is the year text, then the fixed separator `"  \|   TMDB: "`, then the rating. Each part can be read back at its position. |
| `Tmdb.CleanFilename` | TMDB.py:62-65 | Same length. Each character is kept if alphanumeric or one of `._-`, and becomes `_` otherwise. |
| `Tmdb.CleanFilenameSafe` | TMDB.py:62-65 | The cleaned name holds only alphanumerics and `._-`, so no `/` or `:`. |
| `Tmdb.CleanFilenameFixedPoint` | TMDB.py:62-65 | Cleaning leaves a name unchanged if and only if it holds only file characters. |
| `Tmdb.CleanFilenameIdempotent` | TMDB.py:62-65 | Cleaning twice equals cleaning once. |
| `Tmdb.CleanFilenameCollides` | TMDB.py:64 | "Face/Off" and "Face:Off" both become "Face_Off": two titles can share one file. |
| `Tmdb.OutputPathInFolder` | TMDB.py:135 | The output path `Tmdb.OutputPath` is `tmdb_backgrounds/<clean title>.jpg`. Its folder is exactly `tmdb_backgrounds` and its last component is the cleaned title plus ".jpg". |
| `Tmdb.PlanFor` | TMDB.py:144-170 | There is no plan if and only if the backdrop path is None or empty. A plan has URL = base + path, the title as `Tmdb.DisplayTitle` shows it (TMDB.py:160: a TV name is cut to 38, a movie title is kept), the 130-cut overview, the info line, the fixed caption and the output path of that title. |
| `Tmdb.PlanShape` | TMDB.py:146-161 | In a plan: the overview fits in 130 and a TV title in 38, each starting as the original. The file lies directly in `tmdb_backgrounds` under a name of file characters only. |
| `Tmdb.RecordOutcome` | TMDB.py:66-138 | No backdrop if and only if the backdrop path is None or empty. A download failure if and only if the URL answers a status other than 200. Saved if and only if it answers 200 and the drawing and saving go through, and then with the record's plan, directly inside `tmdb_backgrounds`. Any other case is an exception. Reports other than a save carry the displayed title. |
| `Tmdb.ProcessRecord` | TMDB.py:144-170 | One iteration of either loop, with the body of `process_image`, gives exactly the record's outcome. |
| `Tmdb.SavedSetAppend` | TMDB.py:131-135 | Handling one more record adds its path to the folder if it was saved, and nothing else. |
| `Tmdb.SavedSetConcat` | TMDB.py:131-135 | The files saved by two runs in a row are those of the first together with those of the second. |
| `Tmdb.NoCrashAppend` | TMDB.py:144-170 | After outcomes without an exception, one more outcome keeps them so if and only if it is not an exception; either way the run so far stops only at an exception. |
| `Tmdb.HandledAppend` | TMDB.py:144-170 | Appending the next record's outcome keeps the outcomes those of the records, in order. |
| `Tmdb.ProcessResults` | TMDB.py:144-170 | The loop gives the outcomes of the records in order, each the record's outcome. It stops early only at an exception, which is then the last outcome, and no earlier outcome is one. The folder gains exactly the saved paths. |
| `Tmdb.HandledInFolder` | TMDB.py:131-135 | Every path a loop saved to lies directly inside `tmdb_backgrounds`. |
| `Tmdb.RanThrough` | TMDB.py:144-170 | A loop whose last outcome is not an exception handled every record without one. |
| `Tmdb.StopsOnlyAtCrashConcat` | TMDB.py:144-170 | A movie loop without exception followed by the TV loop stops early only where the TV loop does. |
| `Tmdb.HandledSplit` | TMDB.py:144-170 | The movie outcomes followed by the TV outcomes split back into the two loops at the number of movies, when the TV loop ran only after every movie. |
| `Tmdb.RunTrending` | TMDB.py:35-170 | The folder is emptied first. The outcomes are those of the movies in order, then those of the TV shows; the shows are only reached if no movie raised. A missing 'results' counts as an empty list. The run stops early only at an exception. The folder then holds exactly the saved paths, all directly inside `tmdb_backgrounds`. |
| `PlexLatest.ParseOrderBy` | script.py:41-47 | Only "aired" and "added" are accepted orderings; anything else is refused. |
| `PlexLatest.MediaItems` | script.py:33-39 | The search goes ahead if and only if the type is 'movie' with movies on, or 'tv' with series on. It then returns the matching library list. |
| `PlexLatest.SelectSpec` | script.py:41-49 | `PlexLatest.Select`, the processed items: `min(limit, len)` of them, from the library and none twice, newest first. Nothing left out is newer, and items with equal dates keep library order. |
| `PlexLatest.SafeTitleSpec` | script.py:60 | The safe title `PlexLatest.SafeTitle` has the same length and no `:`. Every other character stays in place, and a `/` in particular survives. |
| `PlexLatest.AsWrittenSplitsOnSlash` | script.py:60-62 | As written (`PlexLatest.BackgroundFilenameAsWritten`), for a title holding `/`, the saved file's name is not the safe title plus "_background.jpg". |
| `PlexLatest.AsWrittenEscapesFolder` | script.py:60-62 | As written, a title starting with `/` yields an absolute path outside the folder. |
| `PlexLatest.FileSafeTitle` | script.py:60 | Corrected safe title: same length, with `:` and `/` replaced by `_` and everything else unchanged. |
| `PlexLatest.BackgroundFilenameInFolder` | script.py:30-62 | Corrected path: `<media_type>_backgrounds/<safe title>_background.jpg`. Its folder is exactly the backgrounds folder and its last component is the intended name. |
| `PlexLatest.BackgroundFilenameAgrees` | script.py:60-62 | For titles without `/`, the corrected path equals the path as written. |
| `PlexLatest.ItemOutcomeOf` | script.py:49-107 | No art if and only if artUrl is None or empty. A download failure if and only if the URL answers a status other than 200. Saved if and only if it answers 200 and the writing at the path goes through, and then at the path as script.py builds it (`':'` → `'_'` only). For a title without `/` that is directly in the backgrounds folder under the safe name; for a title with `/` the file name is not that. Any other case is reported as an error. |
| `PlexLatest.ProcessItem` | script.py:49-107 | One iteration gives exactly the item's outcome. |
| `PlexLatest.ProcessSelected` | script.py:49-110 | The item loop gives one outcome per selected item, in order. |
| `PlexLatest.DownloadLatestMedia` | script.py:24-49 | Returns early on an invalid media type (if and only if) and otherwise on an invalid ordering (if and only if). Otherwise it gives one outcome per selected item, in sorted order. |
| `PlexLatest.RunScript` | script.py:112-118 | Movies are processed if and only if switched on, and series likewise. A call that is made is never refused. It processes `Select` of that library with the module-level ordering 'aired' and limit 3 (script.py:13-17), that is `min(3, len)` items, and each outcome is that item's outcome. |

## Findings

| source | as written | input that shows it | evidently intended | confidence | as-written member | corrected member |
|---|---|---|---|---|---|---|
| script.py:60-62 | Only `:` is replaced in the title before `os.path.join`, so a `/` in a title acts as a path separator | title "Face/Off" gives `movie_backgrounds/Face/Off_background.jpg`: a file `Off_background.jpg` in a folder `Face` that does not exist. Title "/x" gives `/x_background.jpg`, outside the folder | a file named after the whole title, directly in `<media_type>_backgrounds` (the comment speaks of removing problematic characters) | medium; not executed | `PlexLatest.AsWrittenSplitsOnSlash` | `PlexLatest.BackgroundFilenameInFolder` |

`PlexLatest.BackgroundFilenameAsWritten` is the path as script.py builds it,
and the two `AsWritten` lemmas show where it goes wrong.
`PlexLatest.ItemOutcomeOf` and `PlexLatest.DownloadLatestMedia` keep the
path as written, so that they describe what the script does. Their contracts
say where it lands: in the folder under the safe name for a title without
`/`, and elsewhere for a title with `/`. The corrected path
`PlexLatest.BackgroundFilename` equals the written one for every title without
`/` (`PlexLatest.BackgroundFilenameAgrees`).

## Left out

- Network I/O is replaced by inputs: the metadata requests, the backdrop and art downloads, the font downloads, and the Plex server client.
- A fetch's result is a parameter: an HTTP status or an exception.
- The two list requests at the top of TMDB.py (lines 27-32) are inputs. If either of them raises, or answers with something other than JSON, the script ends before it touches the folder; that case is not modelled.
- Image work with PIL is not modelled: opening, `resize_image`, pasting overlays and the logo, drawing text with shadows, converting and saving. These are library calls on pixel data. The fixed offsets, colours and font sizes have no behaviour to verify.
- Tmdb.RecordOutcome: which step after a 200 raises (decoding the image, opening the overlays, downloading the font, saving) is not distinguished. One parameter, `rendered`, says whether all of them go through.
- PlexLatest.ItemOutcomeOf: whether writing at a path goes through is a parameter, `written`. The model does not derive that a title with `/` (such as "Face/Off") fails because its folder `movie_backgrounds/Face` does not exist, nor that a failure after `open` can leave a partial file behind.
- Float rounding (`round(vote_average, 1)`) is not modelled. The rating is its text.
- Filesystem effects are not modelled: `shutil.rmtree`, `os.makedirs` and writing the bytes. script.py creates the folder even before it rejects an invalid media type. For TMDB.py the folder is modelled as the set of paths in it (`Tmdb.RunTrending`); for script.py it is not modelled.
- `time.sleep(1)`, the printed messages (the outcomes stand for them) and the unused `textlength` calls are not modelled.
- Tmdb.IsAlnum: Python's `isalnum` is Unicode-aware. The model accepts only ASCII letters and digits, so a non-ASCII letter or digit (such as "é") becomes `_` here but is kept by the script.
- PlexLatest.Key: Plex dates are modelled as integers. A missing date (`None`) makes Python's sort raise, and that case is not modelled.
- Python.PathJoin: only POSIX `os.path.join` is modelled. On Windows, `\` is a separator too.
- Missing fields in a TMDB record (a `KeyError` in the script) are not modelled. Every record has all its fields.
