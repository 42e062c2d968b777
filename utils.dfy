/** The storage helpers of lib/utils.ts: the file-name sanitiser, the
    timestamped storage key, and the upload into the `files` bucket. */
module Utils {
  import opened Platform

  /** The characters the pattern `[^a-zA-Z0-9.]` does not match. */
  predicate IsAllowed(c: char)
  {
    ('a' <= c <= 'z') || ('A' <= c <= 'Z') || ('0' <= c <= '9') || c == '.'
  }

  predicate AllAllowed(s: string)
  {
    forall i :: 0 <= i < |s| ==> IsAllowed(s[i])
  }

  /** `name.replace(/[^a-zA-Z0-9.]/g, '')`: the global flag removes every
      disallowed character, not only the first. */
  function Sanitise(s: string): (r: string)
  {
    if s == [] then []
    else if IsAllowed(s[0]) then [s[0]] + Sanitise(s[1..])
    else Sanitise(s[1..])
  }

  /** The result holds only letters, digits and dots, and is never longer. */
  lemma {:induction false} SanitiseAllowed(s: string)
    ensures AllAllowed(Sanitise(s))
    ensures |Sanitise(s)| <= |s|
  {
    if s != [] {
      SanitiseAllowed(s[1..]);
    }
  }

  /** Sanitising distributes over concatenation: it is an order-preserving filter. */
  lemma {:induction false} SanitiseAppend(a: string, b: string)
    ensures Sanitise(a + b) == Sanitise(a) + Sanitise(b)
  {
    if a != [] {
      assert (a + b)[1..] == a[1..] + b;
      SanitiseAppend(a[1..], b);
    } else {
      assert a + b == b;
    }
  }

  /** Every allowed character is kept as often as it occurs; every other one is dropped. */
  lemma {:induction false} SanitiseCounts(s: string, c: char)
    ensures multiset(Sanitise(s))[c] == if IsAllowed(c) then multiset(s)[c] else 0
  {
    if s != [] {
      SanitiseCounts(s[1..], c);
      assert s == [s[0]] + s[1..];
    }
  }

  /** A name made only of allowed characters is left as it is. */
  lemma {:induction false} SanitiseKeepsAllowed(s: string)
    requires AllAllowed(s)
    ensures Sanitise(s) == s
  {
    if s != [] {
      SanitiseKeepsAllowed(s[1..]);
    }
  }

  /** Sanitising twice is sanitising once. */
  lemma SanitiseIdempotent(s: string)
    ensures Sanitise(Sanitise(s)) == Sanitise(s)
  {
    SanitiseAllowed(s);
    SanitiseKeepsAllowed(Sanitise(s));
  }

  /** `generateFileName(file)`: the time `Date.now()` gave (a parameter here),
      a dash, and the sanitised original name. */
  function GenerateFileName(now: nat, file: File): string
  {
    NatToString(now) + "-" + Sanitise(file.name)
  }

  /** The text before the first dash and the text after it. */
  function SplitAtDash(s: string): (r: (string, string))
  {
    if s == [] then ([], [])
    else if s[0] == '-' then ([], s[1..])
    else var rest := SplitAtDash(s[1..]); ([s[0]] + rest.0, rest.1)
  }

  lemma {:induction false} SplitAtFirstDash(a: string, b: string)
    requires forall i :: 0 <= i < |a| ==> a[i] != '-'
    ensures SplitAtDash(a + "-" + b) == (a, b)
  {
    if a != [] {
      assert (a + "-" + b)[1..] == a[1..] + "-" + b;
      SplitAtFirstDash(a[1..], b);
      assert (a + "-" + b)[0] == a[0] != '-';
      assert a == [a[0]] + a[1..];
    } else {
      assert a + "-" + b == ['-'] + b;
    }
  }

  /** The generated name can be taken apart again: the timestamp's digits
      come before the first dash and the sanitised name after it, so the
      timestamp is recovered by `parseInt`. */
  lemma FileNameSplits(now: nat, file: File)
    ensures SplitAtDash(GenerateFileName(now, file)) == (NatToString(now), Sanitise(file.name))
    ensures ParseInt(SplitAtDash(GenerateFileName(now, file)).0) == Some(now)
  {
    SplitAtFirstDash(NatToString(now), Sanitise(file.name));
    ParseIntOfIntToString(now);
  }

  /** The storage key `${path}/${generateFileName(file)}`. */
  function StorageKey(path: string, now: nat, file: File): string
  {
    path + "/" + GenerateFileName(now, file)
  }

  lemma {:induction false} NoSlashInFileName(now: nat, file: File)
    ensures '/' !in GenerateFileName(now, file)
  {
    SanitiseAllowed(file.name);
    var n := GenerateFileName(now, file);
    forall i | 0 <= i < |n| ensures n[i] != '/' {
      if i > |NatToString(now)| {
        assert n[i] == Sanitise(file.name)[i - |NatToString(now)| - 1];
      }
    }
  }

  lemma SlashIndex(p: string, n: string, i: nat)
    requires '/' !in p && '/' !in n && i < |p| + 1 + |n|
    ensures (p + "/" + n)[i] == '/' <==> i == |p|
  {
    if i < |p| {
      assert (p + "/" + n)[i] == p[i];
    } else if i > |p| {
      assert (p + "/" + n)[i] == n[i - |p| - 1];
    }
  }

  /** Keys under different category folders never collide: the folder is
      the text before the key's only slash. */
  lemma StorageKeysSeparateCategories(p1: string, p2: string, t1: nat, t2: nat, f1: File, f2: File)
    requires '/' !in p1 && '/' !in p2
    requires StorageKey(p1, t1, f1) == StorageKey(p2, t2, f2)
    ensures p1 == p2
  {
    NoSlashInFileName(t1, f1);
    NoSlashInFileName(t2, f2);
    var k := StorageKey(p1, t1, f1);
    SlashIndex(p1, GenerateFileName(t1, f1), |p1|);
    if |p1| < |k| {
      SlashIndex(p2, GenerateFileName(t2, f2), |p1|);
    }
    assert p1 == k[..|p1|] == p2;
  }

  /** The folder of a key: the text before its first slash. */
  function Folder(k: string): (f: string)
    ensures |f| <= |k| && f == k[..|f|] && '/' !in f
  {
    if k == [] || k[0] == '/' then [] else [k[0]] + Folder(k[1..])
  }

  /** A key's folder is the path it was stored under. */
  lemma {:induction false} FolderOfKey(p: string, n: string)
    requires '/' !in p
    ensures Folder(p + "/" + n) == p
  {
    if p != [] {
      assert (p + "/" + n)[1..] == p[1..] + "/" + n;
      FolderOfKey(p[1..], n);
    }
  }

  /** The `files` bucket of the blob store: the objects stored under each key. */
  class FileBucket {
    var objects: map<string, File>

    constructor ()
      ensures objects == map[]
    {
      objects := map[];
    }

    /** `uploadFileToSupabase(file, path)`: writes the file under
        `path/<generated name>` and returns that key.  The upload is made
        without `upsert`, so a key already in the bucket is refused; that
        refusal, like any other error the store reports (`fails`), is thrown
        (Err) and nothing is written.  `now` is the clock reading. */
    method UploadFile(file: File, path: string, now: nat, fails: bool) returns (r: Result<string>)
      modifies this
      ensures r.Ok? <==> !fails && StorageKey(path, now, file) !in old(objects)
      ensures r.Ok? ==> r.value == StorageKey(path, now, file)
      ensures r.Ok? ==> objects == old(objects)[StorageKey(path, now, file) := file]
      ensures r.Err? ==> objects == old(objects)
    {
      var key := path + "/" + GenerateFileName(now, file);
      if fails || key in objects {
        r := Err("storage error");
        return;
      }
      objects := objects[key := file];
      r := Ok(key);
    }
  }
}
