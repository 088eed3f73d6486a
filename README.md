# Data loader: document preparation, cleaning and upload

This project models the three commands of `data-loader.py`, the script that feeds crawled news
documents to a search index:

- `prepare` turns every regular file of `raw` into two files in `content`:
  - a body file `X.txt` holding the document's `text` field;
  - a metadata sidecar `X.txt.metadata.json` with a fixed schema. The schema has `Title`,
    `ContentType` and `DocumentId`, plus an `Attributes` object of six reserved and twelve
    copied keys.
- `clean` deletes every regular file of a directory.
- `upload` sends every regular file of a directory to an object-storage bucket, one upload
  call per file, keyed by the bare file name.

Modules, in dependency order:

- `Json`: parsed JSON values. Numbers are integers.
- `Outcomes`: the exceptions the script can raise, and the `Result`/`Outcome` types that carry
  them.
- `Paths`: `posixpath.join`, `posixpath.basename` and `split('.')[0]`, and the derivation of the
  two output names from the input file's path.
- `Normalizer`: the pure core of `process_file`. It does the fifteen field lookups in source
  order; the first missing field raises a `KeyError`. It then builds the metadata record.
- `Disk`: the filesystem as a set of directories and a map from (directory, name) to an entry,
  which is either a regular file or a subdirectory. A `FileSystem` class updates that map in
  place through `open`, `write`, `makedirs` and `remove`.
- `Logging` and `Storage`: the logger and the object-storage client. Each is a class that
  records the messages or upload calls it receives.
- `LoaderSpec`: the effect of each operation as a function of the state it starts from, and
  the properties proved about those functions.
- `Loader`: the operations as methods over those classes. Each method's postcondition ties
  the new state to its specification function in `LoaderSpec`.

The progress counter of `prepare` and `clean` is modelled as written:

- It starts at 1 and is incremented after each file.
- A message is logged whenever the counter is a multiple of 100.
- So after N files there are (N + 1) div 100 messages. No message comes on the 100th file:
  the first comes after the 99th and reports 100.

Both output files always go to `content`: the output directory given to `process_file` is
ignored. The two files are written in order, so one exception stops the rest:

- A `write` of a body that is not a string fails after `open(..., "w")` has already emptied
  the body file. The model keeps that empty file.
- The first exception ends the whole `prepare` loop. The outputs of every file processed
  before it keep what that file wrote (PrepareRunKeepsWritten). The exception is a file that
  shares its stem with a later file the run reached: `a.json` and then `a.b.json` both write
  `content/a.txt`, so a failing body write of `a.b.json` leaves that file empty.

## Model

| member | source | states |
|---|---|---|
| Paths.Basename | data-loader.py:90 | the body is the model of `path.basename`; its properties are BasenameSpec and BasenameOfJoin |
| Paths.Stem | data-loader.py:90 | the body is the model of `split('.')[0]`; its properties are StemSpec, StemKeepsOut and StemOfDotted |
| Paths.TextName | data-loader.py:90 | the body is the model of the body file's name; its properties are TextNameOfListed, TextNameInjective, TextNameIsNoSidecar and OutputNamesAreFlat |
| Paths.SidecarName | data-loader.py:92 | the body is the model of the sidecar's name; its properties are SidecarNameInjective, TextNameIsNoSidecar and SameStemCollides |
| Paths.Join | data-loader.py:60 | an absolute second component replaces the first, as in `posixpath.join` |
| Paths.JoinEndsWith | data-loader.py:60 | a joined path always ends with its last component |
| Paths.BasenameSpec | data-loader.py:90 | the basename has no '/', is a suffix of the path, and is preceded by '/' unless it is the whole path |
| Paths.StemSpec | data-loader.py:90 | `split('.')[0]` has no '.', is a prefix of the name, and is followed by '.' unless it is the whole name |
| Paths.StemKeepsOut | data-loader.py:90 | the stem holds no character its name lacks |
| Paths.BasenameOfJoin | data-loader.py:60 | a listed file name joined to its directory has itself as basename |
| Paths.StemOfDotted | data-loader.py:90 | a dot-free prefix is the stem exactly when the rest is empty or starts with '.' |
| Paths.TextNameOfListed | data-loader.py:90 | the body file's name depends on the file name alone: its stem plus ".txt" |
| Paths.SameStemCollides | data-loader.py:90-92 | `a.json` and `a.b.json` map to the same body file and the same sidecar |
| Paths.TextNameInjective | data-loader.py:90 | two inputs share a body file exactly when their basenames share a stem |
| Paths.SidecarNameInjective | data-loader.py:92 | two inputs share a sidecar exactly when they share a body file |
| Paths.TextNameIsNoSidecar | data-loader.py:90-92 | no body file name is ever a sidecar name |
| Paths.OutputNamesAreFlat | data-loader.py:90-92 | neither output name contains '/', so both land directly in the output directory |
| Normalizer.Field | data-loader.py:63 | the body is the model of a lookup `data[key]`: the value, or a KeyError naming the key |
| Normalizer.Normalize | data-loader.py:63-89 | the body is the model: the fifteen lookups in source order, then the record; its properties are NormalizeHeader, NormalizeReserved, NormalizePassthrough, NormalizeComplete, NormalizeMissing and NormalizeSucceedsIff |
| Normalizer.Attributes | data-loader.py:69-89 | the body is the model of the Attributes dictionary; its properties are NormalizeReserved, NormalizePassthrough and AttributeKeyCount |
| Normalizer.MetadataToJson | data-loader.py:65-69 | the body is the model of the metadata dictionary that json.dumps serialises; its properties are MetadataRoundTrip and SidecarHasSchema |
| Normalizer.FirstMissing | data-loader.py:63-87 | finds the first key of a sequence that the document lacks; every earlier key is present; none means all are present |
| Normalizer.ReservedKeyCount | data-loader.py:70-75 | there are six reserved attribute keys |
| Normalizer.PassthroughKeyCount | data-loader.py:76-87 | there are twelve copied attribute keys |
| Normalizer.ReservedNotPassthrough | data-loader.py:69-89 | no reserved key is also a copied key |
| Normalizer.AttributeKeyCount | data-loader.py:69-89 | the Attributes object has exactly eighteen keys |
| Normalizer.NormalizeHeader | data-loader.py:63-67 | the body is `text`; Title is `title`; DocumentId is `uuid`; ContentType is always "JSON" |
| Normalizer.NormalizeReserved | data-loader.py:69-75 | Attributes has exactly the eighteen keys; `_category` is "", `_last_updated_at` and `_version` are the placeholder strings, `_view_count` is 0; `_created_at` is `published` and `_source_uri` is `url` |
| Normalizer.NormalizePassthrough | data-loader.py:76-87 | each of the twelve copied keys, `published` and `url` among them, holds its input field unchanged |
| Normalizer.NormalizeComplete | data-loader.py:63-89 | a document with every field normalises to the record of the schema |
| Normalizer.NormalizeMissing | data-loader.py:63-87 | a document that lacks a field fails with a KeyError for the first missing field in lookup order |
| Normalizer.NormalizeSucceedsIff | data-loader.py:63-89 | normalisation succeeds exactly when all fifteen fields are present |
| Normalizer.MetadataRoundTrip | data-loader.py:102 | the serialised metadata object reads back as the metadata that was written |
| Disk.RegularFiles | data-loader.py:47 | the filter keeps exactly the listed names that are regular files, never more than the listing, each once; a name is kept when IsFile holds of it (`isfile(join(d, f))`), and the listing is what IsListing describes (`listdir(d)`: every entry of d once) |
| Disk.RegularFilesAppend | data-loader.py:47 | the filter keeps the listing's order: filtering a concatenation is concatenating the filtered parts |
| Disk.RegularFilesSplit | data-loader.py:47 | the files kept after a listed regular file are exactly the regular files listed after it, so "a later file" means later in the listing |
| Disk.NoRegularFiles | data-loader.py:121 | a listing without regular files filters to nothing |
| Disk.ListedNamesAreFlat | data-loader.py:47 | the names listed for a directory of a well-formed filesystem hold no '/' |
| Disk.LoadJson | data-loader.py:60-61 | loading succeeds exactly on a regular file holding a JSON object, and yields that object's fields |
| Disk.OpenForWrite | data-loader.py:99 | opening for writing succeeds exactly when the directory exists and the name is not a subdirectory; it then truncates the file, and on failure changes nothing |
| Disk.RemoveEffect | data-loader.py:125 | removal succeeds exactly on a regular file and deletes just that entry; on failure it changes nothing |
| Disk.FileSystem.Exists | data-loader.py:42 | a directory exists exactly when it is one of the filesystem's directories |
| Disk.FileSystem.MakeDirs | data-loader.py:44 | creates the directory, or raises FileExistsError if it already exists |
| Disk.FileSystem.Load | data-loader.py:60-61 | opens and parses the file as LoadJson describes |
| Disk.FileSystem.Open | data-loader.py:99 | opens for writing as OpenForWrite describes |
| Disk.FileSystem.Write | data-loader.py:100 | the opened file holds the written data; nothing else changes |
| Disk.FileSystem.Remove | data-loader.py:125 | removes the file as RemoveEffect describes |
| Logging.Logger.Info | data-loader.py:48 | appends the message to the log |
| Storage.ObjectStore.UploadFile | data-loader.py:134 | appends the call (local path, bucket, key) to the calls made |
| LoaderSpec.WriteEffect | data-loader.py:95-105 | the body is the model of write_to_disk; its properties are the Write lemmas below, and Loader.WriteToDisk is proved to have this effect |
| LoaderSpec.WriteTextRoundTrip | data-loader.py:96-100 | a TEXT write of a string leaves the file holding exactly that string |
| LoaderSpec.WriteTextOfNonString | data-loader.py:99-100 | a TEXT write of a non-string raises a TypeError and leaves the file empty |
| LoaderSpec.WriteJsonStores | data-loader.py:101-105 | a JSON write stores the serialised value |
| LoaderSpec.WriteUnwritable | data-loader.py:95-105 | a write that cannot open its file raises and changes nothing |
| LoaderSpec.WriteOtherTypeIsNoop | data-loader.py:95-105 | a content type other than TEXT or JSON leaves the filesystem unchanged |
| LoaderSpec.WriteFrame | data-loader.py:95-105 | a write touches no file but its own |
| LoaderSpec.ProcessEffect | data-loader.py:57-92 | the body is the model of process_file; its properties are the Process lemmas below, and Loader.ProcessFile is proved to have this effect |
| LoaderSpec.ProcessIgnoresOutputDir | data-loader.py:91-92 | the output directory argument has no effect; both files go to "content" |
| LoaderSpec.ProcessFrame | data-loader.py:57-92 | process_file changes at most its body file and its sidecar |
| LoaderSpec.ProcessMissingField | data-loader.py:63-92 | a document that lacks a field raises a KeyError for the first missing one, and leaves the filesystem unchanged |
| LoaderSpec.ProcessUnloadable | data-loader.py:60-61 | a file that does not load as a JSON object raises, and leaves the filesystem unchanged |
| LoaderSpec.ProcessWritesBoth | data-loader.py:57-92 | a complete document with a string body, processed into a writable "content", leaves exactly the body file holding `text` and the sidecar holding the serialised metadata; nothing else changes |
| LoaderSpec.SidecarHasSchema | data-loader.py:65-92 | the sidecar of a complete document reads back as metadata with the full schema |
| LoaderSpec.ProcessDone | data-loader.py:57-92 | a file is processed without an exception only if it loaded, had every field and a string body, and both outputs could be opened |
| LoaderSpec.PrepareRun | data-loader.py:50-51 | the loop processes each file once, in order, until the first exception; it ends normally exactly when every file was processed |
| LoaderSpec.PrepareRunAdvance | data-loader.py:50-51 | one loop step either ends the whole run after i files, or leaves the run over the remaining files to go |
| LoaderSpec.ProgressLog | data-loader.py:49-54 | the body is the model of the progress messages after n files; its property is ProgressLogShape, and Loader.ReportProgress is proved to extend it by one file |
| LoaderSpec.ProgressLogShape | data-loader.py:49-54 | after n files there are (n + 1) div 100 progress messages, reporting 100, 200, and so on in turn |
| LoaderSpec.PrepareRunFrame | data-loader.py:50-51 | nothing changes outside the output files of the files the run reached: those it processed and, when one raised, that one; the files after the one that raised are never touched |
| LoaderSpec.PrepareKeepsSources | data-loader.py:50-51 | every entry outside "content" is left as it was, the files of "raw" included |
| LoaderSpec.OutputKeysApart | data-loader.py:90-92 | two files with distinct body names have four distinct output files |
| LoaderSpec.PrepareRunWritesEach | data-loader.py:47-54 | after a run without exceptions, each input whose stem no later input shares has its `text` in its body file and its metadata in its sidecar |
| LoaderSpec.PrepareRunKeepsWritten | data-loader.py:47-54 | in every run, one that an exception ended included, each file processed before the end whose stem no later file the run reached shares keeps its `text` in its body file and its metadata in its sidecar |
| LoaderSpec.ListedOutputKeys | data-loader.py:90-92 | a listed file X.ext of "raw" has the outputs content/X.txt and content/X.txt.metadata.json |
| LoaderSpec.PrepareWritesListed | data-loader.py:39-54 | after prepare's run over the regular files of "raw" without exceptions, content/X.txt holds the `text` of each listed file X.ext whose stem no later file shares, and content/X.txt.metadata.json its metadata |
| LoaderSpec.Cleaned | data-loader.py:119-125 | after clean, the directory holds no regular file; subdirectories and other directories are untouched |
| LoaderSpec.CleanIdempotent | data-loader.py:119-125 | a second clean finds no file to remove and changes nothing |
| LoaderSpec.CleanAdvance | data-loader.py:124-125 | the next listed file is still present, and removing it extends the removed prefix by one |
| LoaderSpec.RemovingListedIsCleaned | data-loader.py:121-125 | removing every listed regular file is exactly clean's effect |
| LoaderSpec.UploadCalls | data-loader.py:114-116 | one upload call per file |
| LoaderSpec.UploadCallsSpec | data-loader.py:131-134 | each file is uploaded exactly once, to the bucket, under its bare name, from cwd/directory/name; no other call is made |
| Loader.WriteToDisk | data-loader.py:95-105 | the new filesystem and the outcome are those of WriteEffect |
| Loader.ProcessFile | data-loader.py:57-92 | the new filesystem and the outcome are those of ProcessEffect |
| Loader.Prepare | data-loader.py:39-54 | creates "content" if absent, never raising for an existing one; a missing "raw" raises before anything else changes; otherwise it runs over the regular files of "raw" as PrepareRun describes, and logs the count and then the progress messages |
| Loader.ProcessEach | data-loader.py:49-54 | the entries and the outcome are those of PrepareRun over the given files, and the log gains the progress messages for the files processed |
| Loader.ProcessNext | data-loader.py:50-51 | one iteration, as PrepareRunAdvance describes |
| Loader.ReportProgress | data-loader.py:52-54 | after the next file, the log holds the progress messages for one more file |
| Loader.Clean | data-loader.py:119-128 | a missing directory raises and changes nothing; otherwise every regular file is removed as Cleaned describes, and the log gets the count and the progress messages |
| Loader.UploadFile | data-loader.py:131-134 | makes one call: local path cwd/directory/name, the bucket, key the bare name |
| Loader.Upload | data-loader.py:108-116 | a missing directory raises and makes no call; otherwise the calls made are exactly UploadCalls for the regular files, and the count is logged |

## Left out

- `main`, its argument parsing and `choices_descriptions` (data-loader.py:18-36, 137-148): command-line plumbing only. The loader's three commands are the methods `Loader.Prepare`, `Loader.Clean` and `Loader.Upload`.
- The storage session and client (data-loader.py:109-110): the model does not create them. Failures while creating the session, such as an unknown profile, are left out; in the source they raise before the directory is listed. The client is the `ObjectStore`, which records its calls.
- Failures of the upload calls themselves (network, credentials): the client is modelled as always accepting a call.
- Loader.Upload: promises only the multiset of upload calls. The thread pool of ten workers (data-loader.py:115-116) may complete the calls in any order. The model issues them in listing order.
- `json.load` parsing and `json.dumps` serialisation: a regular file holds either plain text or a structured JSON value. Loading a text file is a `JSONDecodeError`. JSON numbers are integers; floating point is left out.
- Logger formatting: messages are structured values. The final text of each message is left out.
- The unused `from cmath import log` import and the whole of `kendra-query-manager.py`: kendra-query-manager.py is not part of this model.
- The order in which `listdir` returns the names, which the operating system defines: each command takes the listing as a parameter, required to name every entry of the directory once.
- The working directory: `getcwd()` is a parameter of `upload`. Elsewhere paths relative to the working directory are directory names.
- File names containing '/': `listdir` never returns them, so the filesystem's invariant excludes them.
- A file named "content" in the working directory: `path.exists` would then hold and `makedirs` would not run. The model has only directories at the top level.
- The text encoding of the body write (data-loader.py:99-100): a body file stores the `text` field as characters, so the round trip of LoaderSpec.WriteTextRoundTrip is one of characters rather than bytes. `open(..., "w")` encodes with the platform encoding, and a string it cannot encode, such as a lone surrogate that `json.load` accepts from a `\ud800` escape, makes `write` raise `UnicodeEncodeError` after `open` has already emptied the file. That failure, and such strings, are left out; Dafny strings cannot hold a lone surrogate.
- Permissions and other operating-system failures of `open`, `write` and `remove`: only a missing directory, a missing file and a subdirectory in place of a file are modelled.
