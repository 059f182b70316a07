/**
 * The export route (packages/web/app/api/export/route.ts): a ZIP archive
 * holding the base JSON, the sweep configuration, a `variants.csv` with one
 * row per job, and the image of every completed job that can be read from
 * storage. The archive is a list of named entries; the file store is a map
 * from file name to bytes; `JSON.stringify(x, null, 2)` and JavaScript's
 * string conversion of a value are oracles.
 */
module ExportArchive {
  import opened Wrappers
  import opened JsonValues
  import Text

  /** The header line of `variants.csv`, its newline included. */
  const CsvHeader: string := "variant_id,job_id,status,image_file,cached\n"

  datatype Content = TextContent(text: string) | Bytes(data: seq<bv8>)
  datatype ArchiveEntry = ArchiveEntry(name: string, content: Content)
  datatype ExportError = TypeError

  /** `p` without its trailing slashes. */
  function TrimTrailingSlashes(p: string): (r: string)
    ensures |r| <= |p| && r == p[..|r|] && (|r| > 0 ==> r[|r| - 1] != '/')
    ensures forall i :: |r| <= i < |p| ==> p[i] == '/'
  {
    if |p| > 0 && p[|p| - 1] == '/' then
      var r := TrimTrailingSlashes(p[..|p| - 1]);
      assert p[..|p| - 1][..|r|] == p[..|r|];
      r
    else p
  }

  /** `path.basename(p)` (POSIX): the last segment once trailing slashes are dropped. */
  function BaseName(p: string): (r: string)
    ensures '/' !in r
  {
    var t := TrimTrailingSlashes(p);
    t[Text.LastIndexOf(t, '/') + 1..]
  }

  /** A path without slashes is its own base name; otherwise the base name is what follows the last slash. */
  lemma BaseNameSpec(p: string)
    ensures '/' !in p ==> BaseName(p) == p
    ensures |p| > 0 && p[|p| - 1] != '/' ==> exists k :: 0 <= k <= |p| && BaseName(p) == p[k..] && (k > 0 ==> p[k - 1] == '/')
  {
    var t := TrimTrailingSlashes(p);
    var k := Text.LastIndexOf(t, '/') + 1;
    if '/' !in p {
      assert t == p;
    }
    if |p| > 0 && p[|p| - 1] != '/' {
      assert t == p;
      assert BaseName(p) == p[k..];
    }
  }

  /** `job.result?.url`, `job.result?.cached`: `?.` stops at `null` and `undefined`. */
  function ResultField(job: Json, key: string): Option<Json>
  {
    match Property(job, "result")
    case Some(result) => Property(result, key)
    case None => None
  }

  /**
   * The image file a job names: the base name of a truthy `result.url`,
   * `None` when it is falsy; `path.basename` throws on a value that is not a
   * string, and so does reading `result` of a `null` job.
   */
  function ImageFile(job: Json): Result<Option<string>, ExportError>
  {
    if job.Null? then Err(TypeError)
    else
      var url := ResultField(job, "url");
      if !Truthy(url) then Ok(None)
      else if url.value.Str? then Ok(Some(BaseName(url.value.s)))
      else Err(TypeError)
  }

  /** `job.result?.cached || false`. */
  function CachedColumn(job: Json): Json
  {
    var cached := ResultField(job, "cached");
    if Truthy(cached) then cached.value else Bool(false)
  }

  /** One CSV row: the 1-based index, the job id, the status, the image file (or `N/A`) and the cached flag. */
  function Row(idx: nat, job: Json, file: Option<string>, show: Option<Json> -> string): string
  {
    Text.NatToString(idx + 1) + "," + show(Property(job, "jobId")) + "," + show(Property(job, "status")) + "," +
    file.GetOr("N/A") + "," + show(Some(CachedColumn(job)))
  }

  /** The image file of every job, or the error its row throws. */
  function ImageFiles(jobs: seq<Json>): (r: seq<Result<Option<string>, ExportError>>)
    ensures |r| == |jobs|
  {
    seq(|jobs|, i requires 0 <= i < |jobs| => ImageFile(jobs[i]))
  }

  /** `jobResults.map(...)`: the rows in job order, or the error of the first job that throws. */
  function Rows(jobs: seq<Json>, show: Option<Json> -> string): (r: Result<seq<string>, ExportError>)
    ensures r.Ok? ==> |r.value| == |jobs|
  {
    match AllOk(ImageFiles(jobs))
    case Err(e) => Err(e)
    case Ok(files) => Ok(seq(|jobs|, i requires 0 <= i < |jobs| => Row(i, jobs[i], files[i], show)))
  }

  /** The rows exist exactly when every job has an image file. */
  lemma RowsOk(jobs: seq<Json>, show: Option<Json> -> string)
    ensures Rows(jobs, show).Ok? <==> forall i :: 0 <= i < |jobs| ==> ImageFile(jobs[i]).Ok?
  {
    var fs := ImageFiles(jobs);
    AllOkSpec(fs);
    assert forall i :: 0 <= i < |jobs| ==> fs[i] == ImageFile(jobs[i]);
  }

  /** When every job has an image file, row `i` is job `i`'s, numbered `i + 1`, with that job's image file. */
  lemma RowsValues(jobs: seq<Json>, show: Option<Json> -> string)
    requires forall i :: 0 <= i < |jobs| ==> ImageFile(jobs[i]).Ok?
    ensures Rows(jobs, show).Ok?
    ensures forall i :: 0 <= i < |jobs| ==> Rows(jobs, show).value[i] == Row(i, jobs[i], ImageFile(jobs[i]).value, show)
  {
    var fs := ImageFiles(jobs);
    AllOkSpec(fs);
    assert forall i :: 0 <= i < |jobs| ==> fs[i] == ImageFile(jobs[i]);
  }

  function Csv(rows: seq<string>): (r: string)
    ensures |r| >= |CsvHeader| && r[..|CsvHeader|] == CsvHeader
  {
    CsvHeader + Text.Join(rows, '\n')
  }

  /**
   * The CSV starts with the header line; when no row holds a newline its
   * lines are the header and then the rows, with no trailing newline after
   * the last row (and a bare header line when there are no jobs).
   */
  lemma {:induction false} CsvLines(rows: seq<string>)
    requires forall i :: 0 <= i < |rows| ==> '\n' !in rows[i]
    ensures |rows| > 0 ==> Text.Split(Csv(rows), '\n') == ["variant_id,job_id,status,image_file,cached"] + rows
    ensures |rows| == 0 ==> Text.Split(Csv(rows), '\n') == ["variant_id,job_id,status,image_file,cached", ""]
  {
    var head := "variant_id,job_id,status,image_file,cached";
    assert CsvHeader == head + "\n";
    var parts := if |rows| > 0 then [head] + rows else [head, ""];
    assert parts[1..] == (if |rows| > 0 then rows else [""]);
    assert Text.Join(parts, '\n') == head + ['\n'] + Text.Join(parts[1..], '\n');
    assert Text.Join([""], '\n') == "";
    assert Csv(rows) == Text.Join(parts, '\n');
    HeaderHasOneLine();
    Text.SplitJoin(parts, '\n');
  }

  lemma HeaderHasOneLine()
    ensures '\n' !in "variant_id,job_id,status,image_file,cached"
  {
  }

  /** The file name of a job's image when it goes into the archive: completed, with a truthy url. */
  function CompletedImage(job: Json, file: Option<string>): Option<string>
  {
    if Property(job, "status") == Some(Str("completed")) && file.Some? then file else None
  }

  /** The image entries for the jobs, in order: readable images of completed jobs, named `images/<basename>`. */
  function ImageEntries(jobs: seq<Json>, files: map<string, seq<bv8>>): seq<ArchiveEntry>
    requires forall i :: 0 <= i < |jobs| ==> ImageFile(jobs[i]).Ok?
    decreases |jobs|
  {
    if |jobs| == 0 then []
    else
      var job := jobs[|jobs| - 1];
      var before := ImageEntries(jobs[..|jobs| - 1], files);
      match CompletedImage(job, ImageFile(job).value)
      case Some(f) => if f in files then before + [ImageEntry(f, files)] else before
      case None => before
  }

  /** The file name a job puts into the archive, if any. */
  function Wanted(job: Json, files: map<string, seq<bv8>>): Option<string>
    requires ImageFile(job).Ok?
  {
    var c := CompletedImage(job, ImageFile(job).value);
    if c.Some? && c.value in files then c else None
  }

  /** The entry a job with a readable image file contributes. */
  function ImageEntry(f: string, files: map<string, seq<bv8>>): ArchiveEntry
    requires f in files
  {
    ArchiveEntry("images/" + f, Bytes(files[f]))
  }

  /** The last turn of the loop: the entries of all jobs but the last, then the last job's entry if it has one. */
  lemma ImageEntriesStep(jobs: seq<Json>, files: map<string, seq<bv8>>)
    requires |jobs| > 0 && forall i :: 0 <= i < |jobs| ==> ImageFile(jobs[i]).Ok?
    ensures var last := jobs[|jobs| - 1]; var before := ImageEntries(jobs[..|jobs| - 1], files);
      ImageEntries(jobs, files) ==
        if Wanted(last, files).Some? then before + [ImageEntry(Wanted(last, files).value, files)] else before
  {
  }

  /** There is never more than one image entry per job. */
  lemma {:induction false} ImageEntriesLength(jobs: seq<Json>, files: map<string, seq<bv8>>)
    requires forall i :: 0 <= i < |jobs| ==> ImageFile(jobs[i]).Ok?
    ensures |ImageEntries(jobs, files)| <= |jobs|
    decreases |jobs|
  {
    if |jobs| > 0 {
      ImageEntriesLength(jobs[..|jobs| - 1], files);
      ImageEntriesStep(jobs, files);
    }
  }

  /** Every image entry is named `images/<f>` for a readable file `f` of a completed job. */
  lemma {:induction false} ImageEntriesSound(jobs: seq<Json>, files: map<string, seq<bv8>>)
    requires forall i :: 0 <= i < |jobs| ==> ImageFile(jobs[i]).Ok?
    ensures forall e :: e in ImageEntries(jobs, files) ==>
      exists i :: 0 <= i < |jobs| && Wanted(jobs[i], files).Some? && e == ImageEntry(Wanted(jobs[i], files).value, files)
    decreases |jobs|
  {
    if |jobs| > 0 {
      var init := jobs[..|jobs| - 1];
      var before := ImageEntries(init, files);
      ImageEntriesSound(init, files);
      ImageEntriesStep(jobs, files);
      forall e | e in ImageEntries(jobs, files)
        ensures exists i :: 0 <= i < |jobs| && Wanted(jobs[i], files).Some? && e == ImageEntry(Wanted(jobs[i], files).value, files)
      {
        if e in before {
          var i :| 0 <= i < |init| && Wanted(init[i], files).Some? && e == ImageEntry(Wanted(init[i], files).value, files);
          assert init[i] == jobs[i];
        } else {
          assert Wanted(jobs[|jobs| - 1], files).Some?;
        }
      }
    }
  }

  /** A completed job whose image file is readable always gets its entry. */
  lemma {:induction false} ImageEntriesComplete(jobs: seq<Json>, files: map<string, seq<bv8>>)
    requires forall i :: 0 <= i < |jobs| ==> ImageFile(jobs[i]).Ok?
    ensures forall i :: 0 <= i < |jobs| && Wanted(jobs[i], files).Some? ==>
      ImageEntry(Wanted(jobs[i], files).value, files) in ImageEntries(jobs, files)
    decreases |jobs|
  {
    if |jobs| > 0 {
      var init := jobs[..|jobs| - 1];
      var before := ImageEntries(init, files);
      var all := ImageEntries(jobs, files);
      ImageEntriesComplete(init, files);
      ImageEntriesStep(jobs, files);
      assert all[..|before|] == before;
      forall i | 0 <= i < |jobs| && Wanted(jobs[i], files).Some?
        ensures ImageEntry(Wanted(jobs[i], files).value, files) in all
      {
        var x := ImageEntry(Wanted(jobs[i], files).value, files);
        if i < |init| {
          assert init[i] == jobs[i];
          var k :| 0 <= k < |before| && before[k] == x;
          assert all[k] == x;
        } else {
          assert all[|all| - 1] == x;
        }
      }
    }
  }

  /** The `for (const job of jobResults)` loop: an unreadable image is skipped and the loop goes on. */
  method AddImages(jobs: seq<Json>, files: map<string, seq<bv8>>) returns (entries: seq<ArchiveEntry>)
    requires forall i :: 0 <= i < |jobs| ==> ImageFile(jobs[i]).Ok?
    ensures entries == ImageEntries(jobs, files)
  {
    entries := [];
    var i := 0;
    while i < |jobs|
      invariant 0 <= i <= |jobs|
      invariant entries == ImageEntries(jobs[..i], files)
    {
      var job := jobs[i];
      assert jobs[..i + 1][..i] == jobs[..i];
      var url := ResultField(job, "url");
      if Property(job, "status") == Some(Str("completed")) && Truthy(url) {
        var filename := BaseName(url.value.s);
        if filename in files {
          entries := entries + [ImageEntry(filename, files)];
        }
      }
      i := i + 1;
    }
    assert jobs[..i] == jobs;
  }

  /**
   * `POST /api/export`: `metadata/base.json`, `metadata/sweep.json`,
   * `metadata/variants.csv`, then the images; it throws when `jobResults`
   * is not an array or a job's row cannot be built.
   */
  function Export(jobResults: Option<Json>, baseJson: Option<Json>, sweepConfig: Option<Json>,
                  files: map<string, seq<bv8>>, pretty: Option<Json> -> string, show: Option<Json> -> string)
    : (r: Result<seq<ArchiveEntry>, ExportError>)
    ensures r.Ok? <==> (jobResults.Some? && jobResults.value.Arr? &&
                        forall i :: 0 <= i < |jobResults.value.items| ==> ImageFile(jobResults.value.items[i]).Ok?)
    ensures r.Ok? ==> (
      3 <= |r.value| <= 3 + |jobResults.value.items| &&
      r.value[0] == ArchiveEntry("metadata/base.json", TextContent(pretty(baseJson))) &&
      r.value[1] == ArchiveEntry("metadata/sweep.json", TextContent(pretty(sweepConfig))) &&
      r.value[2].name == "metadata/variants.csv" && r.value[2].content.TextContent? &&
      |r.value[2].content.text| >= |CsvHeader| && r.value[2].content.text[..|CsvHeader|] == CsvHeader)
  {
    if jobResults.None? || !jobResults.value.Arr? then Err(TypeError)
    else
      var jobs := jobResults.value.items;
      RowsOk(jobs, show);
      match Rows(jobs, show)
      case Err(e) => Err(e)
      case Ok(rows) =>
        var images := ImageEntries(jobs, files);
        ImageEntriesLength(jobs, files);
        Ok([ArchiveEntry("metadata/base.json", TextContent(pretty(baseJson))),
            ArchiveEntry("metadata/sweep.json", TextContent(pretty(sweepConfig))),
            ArchiveEntry("metadata/variants.csv", TextContent(Csv(rows)))] + images)
  }
}
