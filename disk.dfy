/** The local filesystem as the loader sees it: directories relative to the working directory,
    each holding named entries that are regular files or subdirectories. */
module Disk {
  import opened Json
  import opened Outcomes

  /** What a regular file holds: plain text, or the json.dumps serialisation of a value. */
  datatype FileData = TextFile(text: string) | JsonFile(doc: Value)

  /** A directory entry. */
  datatype Entry = Regular(data: FileData) | Subdirectory

  /** Every entry, keyed by (directory, name). */
  type Entries = map<(string, string), Entry>

  /** The result of a step that changes the entries: the new entries and how the step ended. */
  datatype Effect = Effect(entries: Entries, status: Outcome)

  /** Entries live in existing directories and their names, as listdir returns them, hold no '/'. */
  ghost predicate WellFormed(dirs: set<string>, entries: Entries)
  {
    forall k :: k in entries ==> k.0 in dirs && '/' !in k.1
  }

  predicate Distinct(s: seq<string>)
  {
    forall i, j :: 0 <= i < j < |s| ==> s[i] != s[j]
  }

  /** listing is what listdir(d) returns: every name in d once, in some order. */
  ghost predicate IsListing(entries: Entries, d: string, listing: seq<string>)
  {
    && Distinct(listing)
    && forall n :: n in listing <==> (d, n) in entries
  }

  /** The names listdir returns for a directory of a well-formed filesystem hold no '/'. */
  lemma ListedNamesAreFlat(dirs: set<string>, entries: Entries, d: string, listing: seq<string>)
    requires WellFormed(dirs, entries) && IsListing(entries, d, listing)
    ensures forall n :: n in listing ==> '/' !in n
  {
  }

  /** isfile(join(d, n)). */
  predicate IsFile(entries: Entries, d: string, n: string)
  {
    (d, n) in entries && entries[(d, n)].Regular?
  }

  /** [f for f in listing if isfile(join(d, f))]: the regular files of a listing, in its order. */
  function RegularFiles(entries: Entries, d: string, listing: seq<string>): (r: seq<string>)
    ensures |r| <= |listing|
    ensures forall n :: n in r <==> n in listing && IsFile(entries, d, n)
    ensures Distinct(listing) ==> Distinct(r)
  {
    if listing == [] then []
    else
      var rest := RegularFiles(entries, d, listing[1..]);
      if IsFile(entries, d, listing[0]) then [listing[0]] + rest else rest
  }

  /** The filter keeps the listing's order: filtering two listings one after the other is
      filtering their concatenation. */
  lemma {:induction false} RegularFilesAppend(entries: Entries, d: string, l1: seq<string>, l2: seq<string>)
    ensures RegularFiles(entries, d, l1 + l2) == RegularFiles(entries, d, l1) + RegularFiles(entries, d, l2)
  {
    if l1 == [] {
      assert l1 + l2 == l2;
    } else {
      assert (l1 + l2)[0] == l1[0] && (l1 + l2)[1..] == l1[1..] + l2;
      RegularFilesAppend(entries, d, l1[1..], l2);
    }
  }

  /** A regular file f splits the filtered listing where it splits the listing: the files kept
      after f are exactly the regular files listed after it. */
  lemma RegularFilesSplit(entries: Entries, d: string, l1: seq<string>, f: string, l2: seq<string>)
    requires IsFile(entries, d, f)
    ensures RegularFiles(entries, d, l1 + [f] + l2)
         == RegularFiles(entries, d, l1) + [f] + RegularFiles(entries, d, l2)
  {
    RegularFilesAppend(entries, d, l1 + [f], l2);
    RegularFilesAppend(entries, d, l1, [f]);
    assert RegularFiles(entries, d, [f]) == [f] + RegularFiles(entries, d, []);
  }

  /** A directory without regular files lists none. */
  lemma {:induction false} NoRegularFiles(entries: Entries, d: string, listing: seq<string>)
    requires forall n :: n in listing ==> !IsFile(entries, d, n)
    ensures RegularFiles(entries, d, listing) == []
  {
    if listing != [] {
      NoRegularFiles(entries, d, listing[1..]);
    }
  }

  /** open(join(d, n)) followed by json.load: the parsed top-level object, or the exception. */
  function LoadJson(entries: Entries, d: string, n: string): (r: Result<map<string, Value>>)
    ensures r.Ok? <==> (d, n) in entries && entries[(d, n)].Regular? && entries[(d, n)].data.JsonFile?
                       && entries[(d, n)].data.doc.Obj?
    ensures r.Ok? ==> entries[(d, n)] == Regular(JsonFile(Obj(r.value)))
  {
    if (d, n) !in entries then Err(FileNotFound)
    else match entries[(d, n)]
      case Subdirectory => Err(IsADirectory)
      case Regular(TextFile(_)) => Err(MalformedJson)
      case Regular(JsonFile(v)) => if v.Obj? then Ok(v.fields) else Err(NotAnObject)
  }

  /** open(join(d, n), "w"): creates the file, or truncates it to nothing. */
  function OpenForWrite(entries: Entries, dirs: set<string>, d: string, n: string): (e: Effect)
    ensures e.status.Done? <==> d in dirs && !((d, n) in entries && entries[(d, n)].Subdirectory?)
    ensures e.status.Done? ==> e.entries == entries[(d, n) := Regular(TextFile(""))]
    ensures e.status.Failed? ==> e.entries == entries
  {
    if d !in dirs then Effect(entries, Failed(FileNotFound))
    else if (d, n) in entries && entries[(d, n)].Subdirectory? then Effect(entries, Failed(IsADirectory))
    else Effect(entries[(d, n) := Regular(TextFile(""))], Done)
  }

  /** os.remove(join(d, n)): deletes a regular file. */
  function RemoveEffect(entries: Entries, d: string, n: string): (e: Effect)
    ensures e.status.Done? <==> IsFile(entries, d, n)
    ensures e.status.Done? ==> e.entries == entries - {(d, n)}
    ensures e.status.Failed? ==> e.entries == entries
  {
    if (d, n) !in entries then Effect(entries, Failed(FileNotFound))
    else if entries[(d, n)].Subdirectory? then Effect(entries, Failed(IsADirectory))
    else Effect(entries - {(d, n)}, Done)
  }

  /** The filesystem under the working directory. */
  class FileSystem {
    var dirs: set<string>
    var entries: Entries

    ghost predicate Valid()
      reads this
    {
      WellFormed(dirs, entries)
    }

    constructor (dirs: set<string>, entries: Entries)
      requires WellFormed(dirs, entries)
      ensures Valid() && this.dirs == dirs && this.entries == entries
    {
      this.dirs := dirs;
      this.entries := entries;
    }

    /** path.exists(d) for a directory d. */
    method Exists(d: string) returns (b: bool)
      ensures b == (d in dirs)
    {
      b := d in dirs;
    }

    /** os.makedirs(d): creates a directory that does not exist yet. */
    method MakeDirs(d: string) returns (st: Outcome)
      requires Valid()
      modifies this`dirs
      ensures Valid()
      ensures st == (if d in old(dirs) then Failed(FileExists) else Done)
      ensures dirs == old(dirs) + {d}
    {
      if d in dirs {
        st := Failed(FileExists);
      } else {
        dirs := dirs + {d};
        st := Done;
      }
    }

    /** open(join(d, n)) and json.load. */
    method Load(d: string, n: string) returns (r: Result<map<string, Value>>)
      ensures r == LoadJson(entries, d, n)
    {
      r := LoadJson(entries, d, n);
    }

    /** open(join(d, n), "w"). */
    method Open(d: string, n: string) returns (st: Outcome)
      requires Valid() && '/' !in n
      modifies this`entries
      ensures Valid()
      ensures Effect(entries, st) == OpenForWrite(old(entries), dirs, d, n)
    {
      var e := OpenForWrite(entries, dirs, d, n);
      entries, st := e.entries, e.status;
    }

    /** outfile.write(data) on a file just opened for writing. */
    method Write(d: string, n: string, data: FileData)
      requires Valid() && IsFile(entries, d, n)
      modifies this`entries
      ensures Valid()
      ensures entries == old(entries)[(d, n) := Regular(data)]
    {
      entries := entries[(d, n) := Regular(data)];
    }

    /** os.remove(join(d, n)). */
    method Remove(d: string, n: string) returns (st: Outcome)
      requires Valid()
      modifies this`entries
      ensures Valid()
      ensures Effect(entries, st) == RemoveEffect(old(entries), d, n)
    {
      var e := RemoveEffect(entries, d, n);
      entries, st := e.entries, e.status;
    }
  }
}
