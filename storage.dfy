/**
 * server/storage.ts: `FileStorage`, the in-memory pairing-code cache and the
 * session directory. The directory is a map from file name to the JSON value
 * the file holds; writing and reading a file (`JSON.stringify`, `JSON.parse`)
 * preserve the value.
 */
module Storage {
  import opened Optional
  import opened Json
  import opened Strings
  import opened Schema

  const SessionSuffix := ".json"

  /** A pairing code and the absolute time, in milliseconds, after which it is stale. */
  datatype StoredPairingCode = StoredPairingCode(code: string, expiresAt: int)

  // --- Pairing codes ---

  /** The entry `storePairingCode` makes at time `now`. */
  function NewEntry(data: PairingCodeRequest, now: int): (e: StoredPairingCode)
    ensures e.code == data.pairingCode
    ensures data.expiresIn > 0 ==> e.expiresAt >= now + 1000
  {
    StoredPairingCode(data.pairingCode, now + data.expiresIn * 1000)
  }

  /** A read at time `now` still returns the entry (stale only when `now > expiresAt`). */
  predicate Live(e: StoredPairingCode, now: int) {
    now <= e.expiresAt
  }

  /** The entries the periodic sweep at time `now` keeps: those with `expiresAt >= now`. */
  function Unexpired(codes: map<string, StoredPairingCode>, now: int): (r: map<string, StoredPairingCode>)
    ensures forall k :: k in r <==> k in codes && !(codes[k].expiresAt < now)
    ensures forall k :: k in r ==> r[k] == codes[k]
  {
    map k | k in codes && !(codes[k].expiresAt < now) :: codes[k]
  }

  /** The sweep removes nothing a read at the same time would still return. */
  lemma SweepKeepsLive(codes: map<string, StoredPairingCode>, now: int, botId: string)
    requires botId in codes
    ensures botId in Unexpired(codes, now) <==> Live(codes[botId], now)
  {
  }

  /** Sweeping at `t1` and then at a later `t2` is sweeping at `t2`. */
  lemma SweepLater(codes: map<string, StoredPairingCode>, t1: int, t2: int)
    requires t1 <= t2
    ensures Unexpired(Unexpired(codes, t1), t2) == Unexpired(codes, t2)
  {
  }

  // --- Session files ---

  /** The characters the sanitising regular expression keeps: `[A-Za-z0-9_-]`. */
  predicate IsSafeChar(c: char) {
    ('a' <= c <= 'z') || ('A' <= c <= 'Z') || ('0' <= c <= '9') || c == '_' || c == '-'
  }

  predicate AllSafe(s: string) {
    forall k :: 0 <= k < |s| ==> IsSafeChar(s[k])
  }

  /** `botId.replace(/[^a-zA-Z0-9_-]/g, "")`. */
  function Sanitize(botId: string): (r: string)
    ensures AllSafe(r)
    ensures |r| <= |botId|
    decreases |botId|
  {
    if botId == [] then []
    else (if IsSafeChar(botId[0]) then [botId[0]] else []) + Sanitize(botId[1..])
  }

  /** Sanitising keeps the safe characters in their order: it distributes over concatenation. */
  lemma {:induction false} SanitizeConcat(a: string, b: string)
    ensures Sanitize(a + b) == Sanitize(a) + Sanitize(b)
    decreases |a|
  {
    if a == [] {
      assert a + b == b;
    } else {
      var head := if IsSafeChar(a[0]) then [a[0]] else [];
      assert (a + b)[0] == a[0];
      assert (a + b)[1..] == a[1..] + b;
      assert Sanitize(a + b) == head + Sanitize(a[1..] + b);
      SanitizeConcat(a[1..], b);
      assert Sanitize(a) == head + Sanitize(a[1..]);
    }
  }

  /** A single character is kept exactly when it is safe. */
  lemma SanitizeChar(c: char)
    ensures Sanitize([c]) == if IsSafeChar(c) then [c] else []
  {
    assert [c][1..] == [];
  }

  /** A string is its own sanitised form exactly when it holds only safe characters. */
  lemma {:induction false} SanitizeFixed(s: string)
    ensures Sanitize(s) == s <==> AllSafe(s)
    decreases |s|
  {
    if s != [] {
      SanitizeFixed(s[1..]);
      if !IsSafeChar(s[0]) {
        assert |Sanitize(s)| < |s|;
      }
    }
  }

  /** Sanitising twice is sanitising once. */
  lemma SanitizeIdempotent(s: string)
    ensures Sanitize(Sanitize(s)) == Sanitize(s)
  {
    SanitizeFixed(Sanitize(s));
  }

  /** An unsafe character between safe text is dropped. */
  lemma SanitizeDrops(a: string, c: char, b: string)
    requires AllSafe(a) && AllSafe(b) && !IsSafeChar(c)
    ensures Sanitize(a + [c] + b) == a + b
  {
    var ac := a + [c];
    SanitizeConcat(ac, b);
    SanitizeConcat(a, [c]);
    SanitizeChar(c);
    SanitizeFixed(a);
    SanitizeFixed(b);
    assert Sanitize(ac) == a;
  }

  /** Distinct identities may share a key: `bot#1` and `bot!1` both become `bot1`. */
  lemma SanitizeAliases(x: string, y: string)
    requires x == "bot#1" && y == "bot!1"
    ensures Sanitize(x) == Sanitize(y) == "bot1"
  {
    assert x == "bot" + ['#'] + "1" && y == "bot" + ['!'] + "1";
    SanitizeDrops("bot", '#', "1");
    SanitizeDrops("bot", '!', "1");
  }

  /** The file name `getSessionPath` gives a bot, relative to the sessions directory. */
  function SessionFileName(botId: string): (f: string)
    ensures EndsWith(f, SessionSuffix)
  {
    Sanitize(botId) + SessionSuffix
  }

  /**
   * What `listSessions` makes of one directory entry: `f.replace(".json", "")`
   * removes the FIRST `.json` in the name, which need not be the suffix.
   */
  function RemoveFirstJson(f: string): (r: string)
    ensures IndexOf(f, SessionSuffix).None? ==> r == f
    ensures IndexOf(f, SessionSuffix).Some? ==>
      var i := IndexOf(f, SessionSuffix).value;
      r == f[..i] + f[i + |SessionSuffix|..]
  {
    JsReplaceWithoutDollar(f, SessionSuffix, "");
    JsReplace(f, SessionSuffix, "")
  }

  /** The name of a session file, stripped of its suffix, is the sanitised identity. */
  lemma RemoveJsonOfSessionFileName(botId: string)
    ensures RemoveFirstJson(SessionFileName(botId)) == Sanitize(botId)
  {
    var key := Sanitize(botId);
    assert '.' !in key;
    FirstOccurrenceAfter(key, SessionSuffix, "");
    assert key + SessionSuffix + "" == SessionFileName(botId);
    JsReplaceWithoutDollar(SessionFileName(botId), SessionSuffix, "");
    assert SessionFileName(botId)[..|key|] == key;
  }

  /** The `filter`/`map` of `listSessions` over a directory listing. */
  function SessionNames(listing: seq<string>): (names: seq<string>)
    ensures |names| <= |listing|
    decreases |listing|
  {
    if listing == [] then []
    else (if EndsWith(listing[0], SessionSuffix) then [RemoveFirstJson(listing[0])] else []) + SessionNames(listing[1..])
  }

  /** The names the directory's `.json` files stand for. */
  function StoredNames(files: map<string, Json>): set<string> {
    set f | f in files && EndsWith(f, SessionSuffix) :: RemoveFirstJson(f)
  }

  /** The names listed are those of the `.json` entries of the listing, in any order. */
  lemma {:induction false} SessionNamesMembers(listing: seq<string>, n: string)
    ensures n in SessionNames(listing) <==>
      exists k :: 0 <= k < |listing| && EndsWith(listing[k], SessionSuffix) && RemoveFirstJson(listing[k]) == n
    decreases |listing|
  {
    if listing != [] {
      SessionNamesMembers(listing[1..], n);
      if n in SessionNames(listing[1..]) {
        var k :| 0 <= k < |listing[1..]| && EndsWith(listing[1..][k], SessionSuffix) && RemoveFirstJson(listing[1..][k]) == n;
        assert listing[k + 1] == listing[1..][k];
      }
      if exists k :: 0 <= k < |listing| && EndsWith(listing[k], SessionSuffix) && RemoveFirstJson(listing[k]) == n {
        var k :| 0 <= k < |listing| && EndsWith(listing[k], SessionSuffix) && RemoveFirstJson(listing[k]) == n;
        if k > 0 {
          assert listing[1..][k - 1] == listing[k];
        }
      }
    }
  }

  /** The shape of a name `getSessionPath` produces: safe characters followed by `.json`. */
  predicate IsSessionFileName(f: string) {
    EndsWith(f, SessionSuffix) && AllSafe(f[..|f| - |SessionSuffix|])
  }

  /** The names of that shape are exactly the session file names. */
  lemma SessionFileNameShape(f: string)
    ensures IsSessionFileName(f) ==> f == SessionFileName(f[..|f| - |SessionSuffix|])
    ensures forall botId :: IsSessionFileName(SessionFileName(botId))
  {
    if IsSessionFileName(f) {
      SanitizeFixed(f[..|f| - |SessionSuffix|]);
    }
    forall botId ensures IsSessionFileName(SessionFileName(botId)) {
      assert SessionFileName(botId)[..|SessionFileName(botId)| - |SessionSuffix|] == Sanitize(botId);
    }
  }

  /** A directory all of whose entries were written by `saveSession`. */
  predicate SessionDirectory(files: map<string, Json>) {
    forall f :: f in files ==> IsSessionFileName(f)
  }

  /** In such a directory the listed names are exactly the keys of the stored sessions. */
  lemma StoredNamesOfSessionDirectory(files: map<string, Json>, botId: string)
    requires SessionDirectory(files)
    ensures Sanitize(botId) in StoredNames(files) <==> SessionFileName(botId) in files
  {
    if SessionFileName(botId) in files {
      RemoveJsonOfSessionFileName(botId);
    }
    if Sanitize(botId) in StoredNames(files) {
      var f :| f in files && EndsWith(f, SessionSuffix) && RemoveFirstJson(f) == Sanitize(botId);
      var other := f[..|f| - |SessionSuffix|];
      SessionFileNameShape(f);
      RemoveJsonOfSessionFileName(other);
      SanitizeIdempotent(botId);
      SanitizeFixed(other);
    }
  }

  /** Every listed name of such a directory is a sanitised key with its file present. */
  lemma StoredNamesAreSafe(files: map<string, Json>, n: string)
    requires SessionDirectory(files) && n in StoredNames(files)
    ensures AllSafe(n) && SessionFileName(n) in files
  {
    var f :| f in files && EndsWith(f, SessionSuffix) && RemoveFirstJson(f) == n;
    var botId := f[..|f| - |SessionSuffix|];
    SessionFileNameShape(f);
    RemoveJsonOfSessionFileName(botId);
    SanitizeFixed(botId);
  }

  class FileStorage {
    /** The in-memory pairing codes, keyed by the raw bot identity. */
    var pairingCodes: map<string, StoredPairingCode>
    /** The sessions directory: file name to the value the file holds. */
    var sessionFiles: map<string, Json>

    /** A new storage over the sessions directory as found on disk. */
    constructor (directory: map<string, Json>)
      ensures pairingCodes == map[]
      ensures sessionFiles == directory
    {
      pairingCodes := map[];
      sessionFiles := directory;
    }

    /** The body of the minute timer: delete every entry with `expiresAt < now`. */
    method SweepExpired(now: int)
      modifies this`pairingCodes
      ensures pairingCodes == Unexpired(old(pairingCodes), now)
    {
      var pending := pairingCodes.Keys;
      while pending != {}
        invariant pending <= old(pairingCodes).Keys
        invariant forall k :: k in pairingCodes <==>
          k in old(pairingCodes) && (k in pending || !(old(pairingCodes)[k].expiresAt < now))
        invariant forall k :: k in pairingCodes ==> pairingCodes[k] == old(pairingCodes)[k]
        decreases pending
      {
        var botId :| botId in pending;
        if pairingCodes[botId].expiresAt < now {
          pairingCodes := pairingCodes - {botId};
        }
        pending := pending - {botId};
      }
    }

    /** `storePairingCode`: set the entry, replacing any earlier one, live or not. */
    method StorePairingCode(data: PairingCodeRequest, now: int)
      modifies this`pairingCodes
      ensures pairingCodes == old(pairingCodes)[data.botId := NewEntry(data, now)]
    {
      var expiresAt := now + data.expiresIn * 1000;
      pairingCodes := pairingCodes[data.botId := StoredPairingCode(data.pairingCode, expiresAt)];
    }

    /** `getPairingCode`: the live entry, evicting it when it is stale. */
    method GetPairingCode(botId: string, now: int) returns (r: Option<StoredPairingCode>)
      modifies this`pairingCodes
      ensures botId !in old(pairingCodes) ==> r == None && pairingCodes == old(pairingCodes)
      ensures botId in old(pairingCodes) && !Live(old(pairingCodes)[botId], now) ==>
        r == None && pairingCodes == old(pairingCodes) - {botId}
      ensures botId in old(pairingCodes) && Live(old(pairingCodes)[botId], now) ==>
        r == Some(old(pairingCodes)[botId]) && pairingCodes == old(pairingCodes)
    {
      if botId !in pairingCodes {
        return None;
      }
      var data := pairingCodes[botId];
      if now > data.expiresAt {
        pairingCodes := pairingCodes - {botId};
        return None;
      }
      return Some(data);
    }

    /** `saveSession`: write the file, overwriting any earlier one. */
    method SaveSession(data: SessionRequest)
      modifies this`sessionFiles
      ensures sessionFiles == old(sessionFiles)[SessionFileName(data.botId) := data.auth]
    {
      var filePath := SessionFileName(data.botId);
      sessionFiles := sessionFiles[filePath := data.auth];
    }

    /** `getSession`: the value of the bot's file, or `None` when there is no file (ENOENT). */
    method GetSession(botId: string) returns (r: Option<Json>)
      ensures SessionFileName(botId) in sessionFiles ==> r == Some(sessionFiles[SessionFileName(botId)])
      ensures SessionFileName(botId) !in sessionFiles ==> r == None
    {
      var filePath := SessionFileName(botId);
      if filePath in sessionFiles {
        return Some(sessionFiles[filePath]);
      }
      return None;
    }

    /** `deleteSession`: remove the bot's file; an absent file is not an error. */
    method DeleteSession(botId: string)
      modifies this`sessionFiles
      ensures sessionFiles == old(sessionFiles) - {SessionFileName(botId)}
    {
      var filePath := SessionFileName(botId);
      sessionFiles := sessionFiles - {filePath};
    }

    /** The `readdir` of the sessions directory: every file name once, in the file system's order. */
    method ReadDirectory() returns (listing: seq<string>)
      ensures forall f :: f in listing <==> f in sessionFiles
      ensures |listing| == |sessionFiles|
    {
      var pending := sessionFiles.Keys;
      listing := [];
      while pending != {}
        invariant pending <= sessionFiles.Keys
        invariant forall f :: f in listing <==> f in sessionFiles && f !in pending
        invariant |listing| + |pending| == |sessionFiles|
        decreases pending
      {
        var f :| f in pending;
        listing := listing + [f];
        pending := pending - {f};
      }
    }

    /** `listSessions`: the names of the `.json` files with the suffix removed. */
    method ListSessions() returns (names: seq<string>)
      ensures forall n :: n in names <==> n in StoredNames(sessionFiles)
      ensures |names| <= |sessionFiles|
    {
      var listing := ReadDirectory();
      names := SessionNames(listing);
      forall n ensures n in names <==> n in StoredNames(sessionFiles) {
        SessionNamesMembers(listing, n);
        if n in StoredNames(sessionFiles) {
          var f :| f in sessionFiles && EndsWith(f, SessionSuffix) && RemoveFirstJson(f) == n;
          var k :| 0 <= k < |listing| && listing[k] == f;
        }
      }
    }
  }

  /** Saving and then reading with any identity of the same key gives back the saved blob. */
  lemma SaveThenGet(files: map<string, Json>, saved: string, read: string, blob: Json)
    requires Sanitize(saved) == Sanitize(read)
    ensures var after := files[SessionFileName(saved) := blob];
      SessionFileName(read) in after && after[SessionFileName(read)] == blob
  {
  }

  /** Deleting twice is deleting once, and deleting an absent session changes nothing. */
  lemma DeleteIdempotent(files: map<string, Json>, botId: string)
    ensures (files - {SessionFileName(botId)}) - {SessionFileName(botId)} == files - {SessionFileName(botId)}
    ensures SessionFileName(botId) !in files ==> files - {SessionFileName(botId)} == files
  {
  }

  /** Saving and deleting keep a directory that only `saveSession` wrote. */
  lemma SessionDirectoryPreserved(files: map<string, Json>, botId: string, blob: Json)
    requires SessionDirectory(files)
    ensures SessionDirectory(files[SessionFileName(botId) := blob])
    ensures SessionDirectory(files - {SessionFileName(botId)})
  {
    SessionFileNameShape(SessionFileName(botId));
  }
}
