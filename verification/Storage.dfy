/** storage.go and the two key parsers: the URL each backend builds for an object,
    and the recovery of the object key from it. */
module Storage {
  import opened Text

  datatype Backend =
    | Local
    | S3(useSSL: bool, endpoint: string, bucket: string)

  /** Keys are UUID texts: non-empty and without a slash. */
  predicate IsKey(key: string) {
    key != "" && '/' !in key
  }

  const LOCAL_SCHEME := "local://"

  function Url(backend: Backend, key: string): string {
    match backend
    case Local => LOCAL_SCHEME + key
    case S3(useSSL, endpoint, bucket) =>
      (if useSSL then "https" else "http") + "://" + endpoint + "/" + bucket + "/" + key
  }

  /** strings.Split: the pieces between separators, never fewer than one. */
  function Split(s: string, c: char): (parts: seq<string>)
    ensures |parts| >= 1
  {
    if s == "" then [""]
    else
      var rest := Split(s[1..], c);
      if s[0] == c then [""] + rest else [[s[0]] + rest[0]] + rest[1..]
  }

  /** The parser shared by the acknowledgement handler and the cleanup worker. */
  function KeyFromUrl(raw: string): string {
    if HasPrefix(raw, LOCAL_SCHEME) then raw[|LOCAL_SCHEME|..]
    else
      var parts := Split(raw, '/');
      parts[|parts| - 1]
  }

  lemma {:induction false} SplitFree(s: string, c: char)
    requires c !in s
    ensures Split(s, c) == [s]
  {
    if s != "" {
      SplitFree(s[1..], c);
      assert [s[0]] + s[1..] == s;
    }
  }

  lemma {:induction false} SplitLast(a: string, c: char, b: string)
    requires c !in b
    ensures var parts := Split(a + [c] + b, c); parts[|parts| - 1] == b && |parts| >= 2
  {
    var s := a + [c] + b;
    if a == "" {
      assert s[1..] == b;
      SplitFree(b, c);
    } else {
      assert s[1..] == a[1..] + [c] + b;
      SplitLast(a[1..], c, b);
    }
  }

  /** Whatever backend built the URL, both parsers give back the very key that was uploaded. */
  lemma KeyRoundTrip(backend: Backend, key: string)
    requires IsKey(key)
    ensures KeyFromUrl(Url(backend, key)) == key
  {
    match backend
    case Local =>
    case S3(useSSL, endpoint, bucket) =>
      var head := (if useSSL then "https" else "http") + "://" + endpoint + "/" + bucket;
      var raw := Url(backend, key);
      assert raw == head + ['/'] + key;
      assert raw[0] == 'h';
      assert !HasPrefix(raw, LOCAL_SCHEME) by {
        assert raw[..|LOCAL_SCHEME|][0] == 'h' || |raw| < |LOCAL_SCHEME|;
      }
      SplitLast(head, '/', key);
  }

  /** The configured object store. A failed delete changes nothing; a failed upload may leave the
      file it had created, if the store is the local one. */
  class ObjectStore {
    const backend: Backend
    var objects: set<string>

    constructor (backend: Backend)
      ensures this.backend == backend && objects == {}
    {
      this.backend := backend;
      objects := {};
    }

    /** `created` is whether a failing call got as far as creating the file. */
    method Upload(key: string, fails: bool, created: bool) returns (url: Option<string>)
      modifies this
      ensures url == if fails then None else Some(Url(backend, key))
      ensures objects == if fails && !(backend.Local? && created) then old(objects) else old(objects) + {key}
    {
      match backend {
        case Local =>
          if fails && !created {
            return None;
          }
          objects := objects + {key};
          if fails {
            return None;
          }
        case S3(_, _, _) =>
          if fails {
            return None;
          }
          objects := objects + {key};
      }
      url := Some(Url(backend, key));
    }

    method Delete(key: string, fails: bool) returns (ok: bool)
      modifies this
      ensures ok == !fails
      ensures objects == if ok then old(objects) - {key} else old(objects)
    {
      if fails {
        return false;
      }
      objects := objects - {key};
      ok := true;
    }
  }
}
