/** The loader's commands as they run against the filesystem, the logger and the object store,
    each proved to have the effect its specification function in LoaderSpec describes. */
module Loader {
  import opened Json
  import opened Outcomes
  import opened Paths
  import opened Normalizer
  import opened Disk
  import opened Logging
  import opened Storage
  import opened LoaderSpec

  /** write_to_disk(content, filename, directory, contentType). */
  method WriteToDisk(fs: FileSystem, content: Value, filename: string, directory: string, contentType: string)
    returns (st: Outcome)
    requires fs.Valid() && '/' !in filename
    modifies fs`entries
    ensures fs.Valid()
    ensures Effect(fs.entries, st) == WriteEffect(old(fs.entries), fs.dirs, content, filename, directory, contentType)
  {
    st := Done;
    if contentType == "TEXT" {
      st := fs.Open(directory, filename);
      if st.Done? {
        if content.Str? {
          fs.Write(directory, filename, TextFile(content.s));
        } else {
          st := Failed(NotAString);
        }
      }
    } else if contentType == "JSON" {
      st := fs.Open(directory, filename);
      if st.Done? {
        fs.Write(directory, filename, JsonFile(content));
      }
    }
  }

  /** process_file(file, sourceDir, outputDir). */
  method ProcessFile(fs: FileSystem, file: string, sourceDir: string, outputDir: string) returns (st: Outcome)
    requires fs.Valid()
    modifies fs`entries
    ensures fs.Valid()
    ensures Effect(fs.entries, st) == ProcessEffect(old(fs.entries), fs.dirs, file, sourceDir, outputDir)
  {
    var loaded := fs.Load(sourceDir, file);
    if loaded.Err? {
      return Failed(loaded.error);
    }
    var normalized := Normalize(loaded.value);
    if normalized.Err? {
      return Failed(normalized.error);
    }
    var rec := normalized.value;
    var filename := TextName(Join(sourceDir, file));
    OutputNamesAreFlat(Join(sourceDir, file));
    st := WriteToDisk(fs, rec.body, filename, DESTINATION_DIR, "TEXT");
    if st.Failed? {
      return;
    }
    st := WriteToDisk(fs, MetadataToJson(rec.metadata), filename + ".metadata.json", DESTINATION_DIR, "JSON");
  }

  /** prepare(): create "content" when missing, then process every regular file of "raw" in
      listing order, reporting progress with the counter that starts at 1. The listing is the
      order in which the operating system returns the entries of "raw". */
  method Prepare(fs: FileSystem, log: Logger, listing: seq<string>) returns (st: Outcome)
    requires fs.Valid()
    requires SOURCE_DIR in fs.dirs ==> IsListing(fs.entries, SOURCE_DIR, listing)
    modifies fs, log
    ensures fs.Valid()
    ensures fs.dirs == old(fs.dirs) + {DESTINATION_DIR}
    ensures SOURCE_DIR !in fs.dirs ==> st == Failed(FileNotFound) && fs.entries == old(fs.entries)
                                       && log.messages == old(log.messages)
    ensures SOURCE_DIR in fs.dirs ==>
              var files := RegularFiles(old(fs.entries), SOURCE_DIR, listing);
              var run := PrepareRun(old(fs.entries), fs.dirs, files);
              && fs.entries == run.entries && st == run.status
              && log.messages == old(log.messages) + [FoundFiles(ToProcess, |files|)] + ProgressLog(run.processed, Processed)
  {
    var present := fs.Exists(DESTINATION_DIR);
    if !present {
      // makedirs runs only when "content" is absent, so it never raises FileExistsError.
      var made := fs.MakeDirs(DESTINATION_DIR);
      assert made == Done;
    }
    var hasSource := fs.Exists(SOURCE_DIR);
    if !hasSource {
      return Failed(FileNotFound);
    }
    var files := RegularFiles(fs.entries, SOURCE_DIR, listing);
    log.Info(FoundFiles(ToProcess, |files|));
    st := ProcessEach(fs, log, files);
  }

  /** The loop of prepare: process_file on each file in turn, the counter reporting progress,
      until the first exception. */
  method ProcessEach(fs: FileSystem, log: Logger, files: seq<string>) returns (st: Outcome)
    requires fs.Valid()
    modifies fs`entries, log
    ensures fs.Valid()
    ensures var run := PrepareRun(old(fs.entries), fs.dirs, files);
            && fs.entries == run.entries && st == run.status
            && log.messages == old(log.messages) + ProgressLog(run.processed, Processed)
  {
    ghost var e0 := fs.entries;
    ghost var m0 := log.messages;
    assert files[0..] == files;
    var counter := 1;
    var i := 0;
    st := Done;
    while i < |files|
      invariant fs.Valid()
      invariant 0 <= i <= |files| && counter == i + 1
      invariant st.Done?
      invariant PrepareRun(e0, fs.dirs, files) == Resumed(PrepareRun(fs.entries, fs.dirs, files[i..]), i)
      invariant log.messages == m0 + ProgressLog(i, Processed)
      decreases |files| - i
    {
      var s := ProcessNext(fs, e0, files, i);
      if s.Failed? {
        st := s;
        break;
      }
      counter := counter + 1;
      ReportProgress(log, counter, Processed, m0, i);
      i := i + 1;
    }
    assert files[|files|..] == [];
  }

  /** One iteration's process_file call, seen from the run over all the files. */
  method ProcessNext(fs: FileSystem, ghost e0: Entries, files: seq<string>, i: nat) returns (s: Outcome)
    requires fs.Valid() && i < |files|
    requires PrepareRun(e0, fs.dirs, files) == Resumed(PrepareRun(fs.entries, fs.dirs, files[i..]), i)
    modifies fs`entries
    ensures fs.Valid()
    ensures s.Failed? ==> PrepareRun(e0, fs.dirs, files) == Run(fs.entries, s, i)
    ensures s.Done? ==> PrepareRun(e0, fs.dirs, files) == Resumed(PrepareRun(fs.entries, fs.dirs, files[i + 1..]), i + 1)
  {
    PrepareRunAdvance(e0, fs.dirs, files, i, fs.entries);
    s := ProcessFile(fs, files[i], SOURCE_DIR, DESTINATION_DIR);
  }

  /** The progress report after the i + 1st file: the counter, now i + 2, is logged when it is a
      multiple of 100. */
  method ReportProgress(log: Logger, counter: nat, verb: Verb, ghost m0: seq<Message>, ghost i: nat)
    requires counter == i + 2 && log.messages == m0 + ProgressLog(i, verb)
    modifies log
    ensures log.messages == m0 + ProgressLog(i + 1, verb)
  {
    if counter % REPORT_EVERY == 0 {
      log.Info(Progress(verb, counter));
    }
  }

  /** clean(directory): remove every regular file of directory in listing order, reporting
      progress with the counter that starts at 1. */
  method Clean(fs: FileSystem, log: Logger, directory: string, listing: seq<string>) returns (st: Outcome)
    requires fs.Valid()
    requires directory in fs.dirs ==> IsListing(fs.entries, directory, listing)
    modifies fs`entries, log
    ensures fs.Valid()
    ensures directory !in fs.dirs ==> st == Failed(FileNotFound) && fs.entries == old(fs.entries)
                                      && log.messages == old(log.messages)
    ensures directory in fs.dirs ==>
              var files := RegularFiles(old(fs.entries), directory, listing);
              && st == Done && fs.entries == Cleaned(old(fs.entries), directory)
              && log.messages == old(log.messages) + [FoundFiles(ToClean, |files|)] + ProgressLog(|files|, Removed)
  {
    var present := fs.Exists(directory);
    if !present {
      return Failed(FileNotFound);
    }
    var files := RegularFiles(fs.entries, directory, listing);
    log.Info(FoundFiles(ToClean, |files|));
    ghost var e0 := fs.entries;
    ghost var m0 := log.messages;
    var counter := 1;
    var i := 0;
    while i < |files|
      invariant fs.Valid()
      invariant 0 <= i <= |files| && counter == i + 1
      invariant fs.entries == Without(e0, directory, files[..i])
      invariant log.messages == m0 + ProgressLog(i, Removed)
      decreases |files| - i
    {
      CleanAdvance(e0, directory, files, i, fs.entries);
      // Each listed regular file is still there when its turn comes, so remove never raises.
      var removed := fs.Remove(directory, files[i]);
      assert removed == Done;
      counter := counter + 1;
      ReportProgress(log, counter, Removed, m0, i);
      i := i + 1;
    }
    assert files[..i] == files;
    RemovingListedIsCleaned(e0, directory, listing);
    st := Done;
  }

  /** upload_file(s3, bucket, sourceDirectory, myfile), run from the working directory cwd. */
  method UploadFile(store: ObjectStore, cwd: string, bucket: string, sourceDirectory: string, myfile: string)
    modifies store
    ensures store.puts == old(store.puts) + [Put(Join(Join(cwd, sourceDirectory), myfile), bucket, myfile)]
  {
    store.UploadFile(Join(Join(cwd, sourceDirectory), myfile), bucket, myfile);
  }

  /** upload(sourceDirectory, bucket, region, profile): one upload_file call for every regular
      file of sourceDirectory. The thread pool may issue the calls in any order, so only the
      multiset of calls is promised. */
  method Upload(fs: FileSystem, log: Logger, store: ObjectStore, cwd: string, sourceDirectory: string,
                bucket: string, listing: seq<string>) returns (st: Outcome)
    requires sourceDirectory in fs.dirs ==> IsListing(fs.entries, sourceDirectory, listing)
    modifies log, store
    ensures sourceDirectory !in fs.dirs ==> st == Failed(FileNotFound) && store.puts == old(store.puts)
                                            && log.messages == old(log.messages)
    ensures sourceDirectory in fs.dirs ==>
              var files := RegularFiles(fs.entries, sourceDirectory, listing);
              && st == Done
              && multiset(store.puts) == multiset(old(store.puts)) + multiset(UploadCalls(cwd, sourceDirectory, bucket, files))
              && log.messages == old(log.messages) + [FoundFiles(ToUpload, |files|)]
  {
    var present := fs.Exists(sourceDirectory);
    if !present {
      return Failed(FileNotFound);
    }
    var files := RegularFiles(fs.entries, sourceDirectory, listing);
    log.Info(FoundFiles(ToUpload, |files|));
    ghost var p0 := store.puts;
    var i := 0;
    while i < |files|
      invariant 0 <= i <= |files|
      invariant store.puts == p0 + UploadCalls(cwd, sourceDirectory, bucket, files[..i])
      invariant log.messages == old(log.messages) + [FoundFiles(ToUpload, |files|)]
      decreases |files| - i
    {
      UploadCallsSnoc(cwd, sourceDirectory, bucket, files[..i], files[i]);
      assert files[..i + 1] == files[..i] + [files[i]];
      UploadFile(store, cwd, bucket, sourceDirectory, files[i]);
      i := i + 1;
    }
    assert files[..i] == files;
    st := Done;
  }
}
