/** The file-based weather cache: one record per normalised (city, state)
    key, holding the write time and the cached weather dictionary, valid
    for a fixed time-to-live. The directory of records is a map from file
    path to file content; the clock is a count of microseconds. */
module Cache {
  import opened Values

  const DEFAULT_TTL_MINUTES: nat := 30
  const MICROS_PER_MINUTE: nat := 60_000_000
  /** `timedelta(minutes=30)` in clock units. */
  const DEFAULT_TTL: nat := DEFAULT_TTL_MINUTES * MICROS_PER_MINUTE

  const TIMESTAMP_FIELD := "_timestamp"
  const DATA_FIELD := "data"
  const NOT_A_STRING := "fromisoformat: argument must be str"

  // ---------------------------------------------------------------------
  // Key and path derivation

  /** Case mapping of one character; letters outside ASCII are left alone. */
  function LowerChar(c: char): char
  {
    if 'A' <= c <= 'Z' then (c as int + 32) as char else c
  }

  function UpperChar(c: char): char
  {
    if 'a' <= c <= 'z' then (c as int - 32) as char else c
  }

  /** `str.lower()` */
  function Lower(s: string): (r: string)
    ensures |r| == |s|
  {
    if s == [] then [] else [LowerChar(s[0])] + Lower(s[1..])
  }

  /** `str.upper()` */
  function Upper(s: string): (r: string)
    ensures |r| == |s|
  {
    if s == [] then [] else [UpperChar(s[0])] + Upper(s[1..])
  }

  /** Case mapping works character by character. */
  lemma {:induction false} LowerAt(s: string, i: nat)
    requires i < |s|
    ensures Lower(s)[i] == LowerChar(s[i])
  {
    if i > 0 {
      LowerAt(s[1..], i - 1);
    }
  }

  lemma {:induction false} UpperAt(s: string, i: nat)
    requires i < |s|
    ensures Upper(s)[i] == UpperChar(s[i])
  {
    if i > 0 {
      UpperAt(s[1..], i - 1);
    }
  }

  lemma {:induction false} LowerConcat(a: string, b: string)
    ensures Lower(a + b) == Lower(a) + Lower(b)
  {
    if a == [] {
      assert a + b == b;
    } else {
      assert (a + b)[0] == a[0];
      assert (a + b)[1..] == a[1..] + b;
      LowerConcat(a[1..], b);
    }
  }

  lemma {:induction false} LowerIdempotent(s: string)
    ensures Lower(Lower(s)) == Lower(s)
  {
    if s != [] {
      LowerIdempotent(s[1..]);
      assert Lower(s)[1..] == Lower(s[1..]);
    }
  }

  lemma {:induction false} LowerOfUpper(s: string)
    ensures Lower(Upper(s)) == Lower(s)
  {
    if s != [] {
      LowerOfUpper(s[1..]);
      assert Upper(s)[1..] == Upper(s[1..]);
    }
  }

  /** The text that is hashed: both parts lower-cased, joined by a comma. */
  function KeyText(city: string, state: string): (r: string)
    ensures |r| == |city| + 1 + |state|
    ensures r[..|city|] == Lower(city) && r[|city|] == ',' && r[|city| + 1..] == Lower(state)
  {
    Lower(city) + "," + Lower(state)
  }

  /** `_get_cache_key`: the digest (MD5 hex in the source) of the key text. */
  function CacheKey(digest: string -> string, city: string, state: string): (r: string)
    ensures r == digest(KeyText(Lower(city), Lower(state)))
  {
    LowerIdempotent(city);
    LowerIdempotent(state);
    digest(KeyText(city, state))
  }

  /** The directory the default constructor uses, below the home directory. */
  function DefaultCacheDir(home: string): string
  {
    home + "/.cache/cli-mate"
  }

  /** `_get_cache_path`: `<dir>/<key>.json`. */
  function CachePath(dir: string, key: string): (r: string)
    ensures |r| == |dir| + |key| + 6
    ensures r[..|dir|] == dir && r[|dir|] == '/' && r[|dir| + 1..|dir| + 1 + |key|] == key
    ensures r[|dir| + 1 + |key|..] == ".json"
  {
    dir + "/" + key + ".json"
  }

  /** Letter case never changes the key, whichever way it is changed. */
  lemma CacheKeyIgnoresCase(digest: string -> string, city: string, state: string)
    ensures CacheKey(digest, city, state) == CacheKey(digest, Lower(city), Lower(state))
    ensures CacheKey(digest, Upper(city), Lower(state)) == CacheKey(digest, city, state)
    ensures CacheKey(digest, Upper(city), Upper(state)) == CacheKey(digest, city, state)
  {
    LowerIdempotent(city);
    LowerIdempotent(state);
    LowerOfUpper(city);
    LowerOfUpper(state);
  }

  /** The separator is not escaped: moving a comma from the city into the
      state, or back, gives the same key. */
  lemma KeySeparatorIsAmbiguous(digest: string -> string, a: string, b: string, c: string)
    ensures CacheKey(digest, a + "," + b, c) == CacheKey(digest, a, b + "," + c)
  {
    assert Lower(",") == ",";
    LowerConcat(a + ",", b);
    LowerConcat(a, ",");
    LowerConcat(b + ",", c);
    LowerConcat(b, ",");
    calc {
      KeyText(a + "," + b, c);
      Lower(a + "," + b) + "," + Lower(c);
      Lower(a) + "," + Lower(b) + "," + Lower(c);
      Lower(a) + "," + Lower(b + "," + c);
      KeyText(a, b + "," + c);
    }
  }

  /** The instance the separator ambiguity is usually shown with. */
  lemma KeyCollisionExample(digest: string -> string)
    ensures CacheKey(digest, "a,b", "c") == CacheKey(digest, "a", "b,c")
  {
    KeySeparatorIsAmbiguous(digest, "a", "b", "c");
    assert "a" + "," + "b" == "a,b";
    assert "b" + "," + "c" == "b,c";
  }

  /** Two keys share a file exactly when they are the same key. */
  lemma CachePathInjective(dir: string, k1: string, k2: string)
    ensures CachePath(dir, k1) == CachePath(dir, k2) <==> k1 == k2
  {
    if CachePath(dir, k1) == CachePath(dir, k2) {
      var n := |dir| + 1;
      assert |k1| == |k2|;
      assert CachePath(dir, k1)[n..n + |k1|] == k1;
      assert CachePath(dir, k2)[n..n + |k2|] == k2;
    }
  }

  // ---------------------------------------------------------------------
  // Timestamps: the ISO text written by `isoformat` and read back by
  // `fromisoformat`, as a decimal numeral of the clock.

  predicate IsDigit(c: char)
  {
    '0' <= c <= '9'
  }

  predicate AllDigits(s: string)
  {
    forall i :: 0 <= i < |s| ==> IsDigit(s[i])
  }

  function DigitChar(d: nat): (c: char)
    requires d < 10
    ensures IsDigit(c) && c as int - '0' as int == d
  {
    ('0' as int + d) as char
  }

  function DigitsValue(s: string): nat
    requires AllDigits(s)
  {
    if s == [] then 0 else DigitsValue(s[..|s| - 1]) * 10 + (s[|s| - 1] as int - '0' as int)
  }

  /** `datetime.isoformat()`: a non-empty numeral whose value is the instant. */
  function ShowStamp(t: nat): (s: string)
    ensures |s| > 0 && AllDigits(s) && DigitsValue(s) == t
    decreases t
  {
    if t < 10 then [DigitChar(t)]
    else
      var s := ShowStamp(t / 10) + [DigitChar(t % 10)];
      assert s[..|s| - 1] == ShowStamp(t / 10);
      s
  }

  /** `datetime.fromisoformat()`; `None` where it raises `ValueError`. */
  function ParseStamp(s: string): (r: Option<nat>)
    ensures r.Some? <==> s != [] && AllDigits(s)
    ensures r.Some? ==> r.value == DigitsValue(s)
  {
    if s != [] && AllDigits(s) then Some(DigitsValue(s)) else None
  }

  /** What `set` writes, `get` reads back as the same instant. */
  lemma ParseShowStamp(t: nat)
    ensures ParseStamp(ShowStamp(t)) == Some(t)
  {
  }

  // ---------------------------------------------------------------------
  // Records

  /** The content of one cache file: text that does not decode as JSON,
      or the decoded document. */
  datatype CacheFile = Unreadable | Document(doc: Json)

  /** The record `set` writes: `{"_timestamp": now.isoformat(), "data": data}`. */
  function FreshRecord(now: nat, data: Json): (r: CacheFile)
    ensures r.Document? && r.doc.JObj? && r.doc.fields.Keys == {TIMESTAMP_FIELD, DATA_FIELD}
    ensures r.doc.fields[TIMESTAMP_FIELD] == JStr(ShowStamp(now)) && r.doc.fields[DATA_FIELD] == data
  {
    Document(JObj(map[TIMESTAMP_FIELD := JStr(ShowStamp(now)), DATA_FIELD := data]))
  }

  /** The write time of a well-formed record, if it has one. */
  function Stamp(file: CacheFile): Option<nat>
  {
    if file.Document? && file.doc.JObj? && TIMESTAMP_FIELD in file.doc.fields
       && file.doc.fields[TIMESTAMP_FIELD].JStr?
    then ParseStamp(file.doc.fields[TIMESTAMP_FIELD].s)
    else None
  }

  /** What a read of one record can do: return a value (possibly `None`),
      or let an exception escape. */
  datatype ReadOutcome = Returned(value: Option<Json>) | Raised(error: Exc)

  /** The exceptions `get` catches besides `JSONDecodeError`. */
  predicate Caught(e: Exc)
  {
    e.KeyError? || e.ValueError?
  }

  function Rescue(e: Exc): ReadOutcome
  {
    if Caught(e) then Returned(None) else Raised(e)
  }

  /** The records `get` cannot read without raising `TypeError`: a
      document that is not an object, or one whose timestamp is present
      but not a string. */
  predicate RaisesOnRead(file: CacheFile)
  {
    file.Document?
    && (!file.doc.JObj? || (TIMESTAMP_FIELD in file.doc.fields && !file.doc.fields[TIMESTAMP_FIELD].JStr?))
  }

  /** The body of `get` past the existence check, exactly as written: an
      unreadable file, a missing field or a bad timestamp yields `None`,
      but a document that is not an object or a timestamp that is not a
      string raises `TypeError`, which the handler does not name. */
  function ReadAsWritten(file: CacheFile, now: nat, ttl: nat): (r: ReadOutcome)
    ensures r.Raised? <==> RaisesOnRead(file)
    ensures r.Raised? ==> r.error.TypeError?
    ensures r.Returned? && r.value.Some? <==>
              Stamp(file).Some? && now - Stamp(file).value <= ttl && DATA_FIELD in file.doc.fields
    ensures r.Returned? && r.value.Some? ==> r.value.value == file.doc.fields[DATA_FIELD]
  {
    match file
    case Unreadable => Returned(None)
    case Document(doc) =>
      match Index(doc, TIMESTAMP_FIELD)
      case Err(e) => Rescue(e)
      case Ok(stamp) =>
        if !stamp.JStr? then Raised(TypeError(NOT_A_STRING))
        else
          match ParseStamp(stamp.s)
          case None => Returned(None)
          case Some(t) =>
            if now - t > ttl then Returned(None)
            else
              match Index(doc, DATA_FIELD)
              case Err(e) => Rescue(e)
              case Ok(data) => Returned(Some(data))
  }

  /** The read `get` is meant to perform: every malformed record is a miss.
      A record is returned when it has a readable write time no more than
      `ttl` before `now` and a data field. */
  function Read(file: CacheFile, now: nat, ttl: nat): (r: Option<Json>)
    ensures r.Some? <==> Stamp(file).Some? && now - Stamp(file).value <= ttl
                         && DATA_FIELD in file.doc.fields
    ensures r.Some? ==> r.value == file.doc.fields[DATA_FIELD]
  {
    match ReadAsWritten(file, now, ttl)
    case Returned(v) => v
    case Raised(_) => None
  }

  /** Wherever the code as written does not raise, the corrected read
      returns the same thing. */
  lemma ReadAgreesWithSource(file: CacheFile, now: nat, ttl: nat)
    ensures ReadAsWritten(file, now, ttl).Returned? ==> Read(file, now, ttl) == ReadAsWritten(file, now, ttl).value
    ensures ReadAsWritten(file, now, ttl).Raised? ==>
              Read(file, now, ttl) == None && ReadAsWritten(file, now, ttl).error.TypeError?
  {
  }

  /** A record whose top level is a list makes `get` as written raise. */
  lemma ListRecordRaises(now: nat, ttl: nat)
    ensures ReadAsWritten(Document(JArr([])), now, ttl).Raised?
    ensures Read(Document(JArr([])), now, ttl) == None
  {
  }

  /** So does a record whose timestamp is a number. */
  lemma NumericStampRaises(now: nat, ttl: nat, data: Json)
    ensures ReadAsWritten(Document(JObj(map[TIMESTAMP_FIELD := JInt(0), DATA_FIELD := data])), now, ttl)
            == Raised(TypeError(NOT_A_STRING))
    ensures Read(Document(JObj(map[TIMESTAMP_FIELD := JInt(0), DATA_FIELD := data])), now, ttl) == None
  {
  }

  /** A record is written with the current instant as its write time. */
  lemma FreshRecordStamp(now: nat, data: Json)
    ensures Stamp(FreshRecord(now, data)) == Some(now)
  {
    ParseShowStamp(now);
  }

  /** Reading back what was written at `now`: the same data while no more
      than `ttl` has passed, nothing afterwards. */
  lemma ReadFreshRecord(now: nat, data: Json, later: nat, ttl: nat)
    ensures Read(FreshRecord(now, data), later, ttl) == if later - now > ttl then None else Some(data)
  {
    FreshRecordStamp(now, data);
  }

  /** The comparison is strict: a record exactly `ttl` old is still served,
      one a microsecond older is not. */
  lemma ExpiryBoundary(now: nat, data: Json, ttl: nat)
    ensures Read(FreshRecord(now, data), now + ttl, ttl) == Some(data)
    ensures Read(FreshRecord(now, data), now + ttl + 1, ttl) == None
  {
    ReadFreshRecord(now, data, now + ttl, ttl);
    ReadFreshRecord(now, data, now + ttl + 1, ttl);
  }

  // ---------------------------------------------------------------------
  // Writes

  /** How the write in `set` ends: it completes, `open` fails and nothing
      is touched, or the file is opened (and so truncated) and the dump
      fails part-way, leaving text that does not decode. */
  datatype WriteFault = NoFault | OpenFails | DumpFails

  /** The directory after `set` writes `data` at `now` to `path`. */
  function Written(files: map<string, CacheFile>, path: string, now: nat, data: Json,
                   fault: WriteFault): (r: map<string, CacheFile>)
    ensures fault == NoFault ==> path in r && r[path] == FreshRecord(now, data)
    ensures fault == OpenFails ==> r == files
    ensures fault == DumpFails ==> path in r && r[path] == Unreadable
  {
    match fault
    case NoFault => files[path := FreshRecord(now, data)]
    case OpenFails => files
    case DumpFails => files[path := Unreadable]
  }

  /** A write touches its own path and no other. */
  lemma WrittenFrame(files: map<string, CacheFile>, path: string, now: nat, data: Json, fault: WriteFault)
    ensures forall q :: q != path ==> (q in Written(files, path, now, data, fault) <==> q in files)
    ensures forall q :: q != path && q in files ==> Written(files, path, now, data, fault)[q] == files[q]
  {
  }

  /** `get` on the path just written by `set`: the data itself when the
      write completed, the previous record when `open` failed, and a miss
      when the dump failed part-way. Nothing raises. */
  lemma ReadAfterWrite(files: map<string, CacheFile>, path: string, now: nat, data: Json,
                       fault: WriteFault, later: nat, ttl: nat)
    ensures fault == NoFault ==>
              path in Written(files, path, now, data, fault)
              && Read(Written(files, path, now, data, fault)[path], later, ttl)
                 == if later - now > ttl then None else Some(data)
    ensures fault == OpenFails ==> Written(files, path, now, data, fault) == files
    ensures fault == DumpFails ==>
              path in Written(files, path, now, data, fault)
              && Read(Written(files, path, now, data, fault)[path], later, ttl) == None
  {
    ReadFreshRecord(now, data, later, ttl);
  }

  // ---------------------------------------------------------------------
  // The cache object

  class WeatherCache {
    const cacheDir: string
    const ttl: nat
    /** The hash of the key text (MD5 hex digest in the source). */
    const digest: string -> string
    /** The files in `cacheDir`, by path. */
    var files: map<string, CacheFile>

    /** The default constructor: the directory below `home`, a 30-minute
        TTL, and whatever records are already on disk. */
    constructor (home: string, digest: string -> string, onDisk: map<string, CacheFile>)
      ensures cacheDir == DefaultCacheDir(home)
      ensures ttl == DEFAULT_TTL
      ensures this.digest == digest
      ensures files == onDisk
    {
      cacheDir := DefaultCacheDir(home);
      ttl := DEFAULT_TTL_MINUTES * MICROS_PER_MINUTE;
      this.digest := digest;
      files := onDisk;
    }

    /** `_get_cache_path`: a `.json` file directly in the cache directory,
        named by the case-insensitive key. */
    function Path(city: string, state: string): (r: string)
      ensures r == CachePath(cacheDir, CacheKey(digest, Lower(city), Lower(state)))
      ensures |r| > |cacheDir| + 5 && r[..|cacheDir|] == cacheDir && r[|cacheDir|] == '/' && r[|r| - 5..] == ".json"
    {
      CachePath(cacheDir, CacheKey(digest, city, state))
    }

    /** `get`, as written: the cached dictionary for (city, state), or
        `None` when there is no file, the file is malformed, or it is
        stale; a record `get` cannot read raises `TypeError`. */
    function Get(city: string, state: string, now: nat): (r: ReadOutcome)
      reads this
      ensures Path(city, state) !in files ==> r == Returned(None)
      ensures r.Raised? <==> Path(city, state) in files && RaisesOnRead(files[Path(city, state)])
      ensures r.Raised? ==> r.error.TypeError?
      ensures r.Returned? && r.value.Some? <==>
                && Path(city, state) in files
                && Stamp(files[Path(city, state)]).Some?
                && now - Stamp(files[Path(city, state)]).value <= ttl
                && DATA_FIELD in files[Path(city, state)].doc.fields
      ensures r.Returned? && r.value.Some? ==> r.value.value == files[Path(city, state)].doc.fields[DATA_FIELD]
    {
      var path := Path(city, state);
      if path !in files then Returned(None) else ReadAsWritten(files[path], now, ttl)
    }

    /** `set`: overwrite the record for (city, state) with `(now, data)`;
        a failed write is swallowed. */
    method Set(city: string, state: string, data: Json, now: nat, fault: WriteFault)
      modifies this
      ensures files == Written(old(files), Path(city, state), now, data, fault)
      ensures fault == NoFault ==> Get(city, state, now) == Returned(Some(data))
      ensures fault == OpenFails ==> files == old(files)
      ensures fault == DumpFails ==> Get(city, state, now) == Returned(None)
      ensures forall q :: q != Path(city, state) ==> (q in files <==> q in old(files))
      ensures forall q :: q != Path(city, state) && q in files ==> files[q] == old(files)[q]
    {
      var path := Path(city, state);
      match fault {
        case NoFault =>
          files := files[path := FreshRecord(now, data)];
        case OpenFails =>
        case DumpFails =>
          files := files[path := Unreadable];
      }
      ReadAfterWrite(old(files), path, now, data, fault, now, ttl);
      WrittenFrame(old(files), path, now, data, fault);
    }
  }

  /** A `set` for one (city, state) leaves `get` for every (city, state)
      with a different key exactly as it was. */
  lemma OtherKeysUnchanged(dir: string, digest: string -> string, files: map<string, CacheFile>,
                           city: string, state: string, data: Json, now: nat, fault: WriteFault,
                           city': string, state': string, later: nat, ttl: nat)
    requires CacheKey(digest, city', state') != CacheKey(digest, city, state)
    ensures var p := CachePath(dir, CacheKey(digest, city, state));
            var q := CachePath(dir, CacheKey(digest, city', state'));
            var after := Written(files, p, now, data, fault);
            (q in after <==> q in files) && (q in files ==> Read(after[q], later, ttl) == Read(files[q], later, ttl))
  {
    CachePathInjective(dir, CacheKey(digest, city, state), CacheKey(digest, city', state'));
    WrittenFrame(files, CachePath(dir, CacheKey(digest, city, state)), now, data, fault);
  }
}
