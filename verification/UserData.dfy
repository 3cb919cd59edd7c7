/** Putting the host name into a machine's ignition user data. */
module UserData {
  import opened Wrappers
  import opened JsonValue

  const HOSTNAME_PATH := "/etc/hostname"
  const HOSTNAME_MODE := 420.0

  function HostnameFile(hostname: string): Json {
    Obj(map["filesystem" := Str("root"), "path" := Str(HOSTNAME_PATH), "mode" := Num(HOSTNAME_MODE),
            "contents" := Obj(map["source" := Str("data:," + hostname)])])
  }

  /** Where the code returns: an object whose storage, if any, is an object without files. */
  predicate InDomain(src: Option<Json>) {
    src.Some? && src.value.Obj? &&
    match Member(src.value, "storage")
    case None => true
    case Some(storage) => storage.Obj? && "files" !in storage.fields
  }

  function WithHostname(src: Json, hostname: string): Json
    requires InDomain(Some(src))
  {
    var storage := Member(src, "storage").GetOr(EMPTY).fields;
    Obj(src.fields["storage" := Obj(storage["files" := Arr([HostnameFile(hostname)])])])
  }

  /**
   The in-place edit of the parsed document. A source that is not a JSON object leaves the data
   map nil, and writing to it panics; so do the two type assertions, the second one on every
   `files` member that was already there, because parsing never yields a list of maps.
   */
  method AddHostnameToUserData(src: Option<Json>, hostname: string) returns (result: Outcome<Json>)
    ensures result.Returned? <==> InDomain(src)
    ensures result.Returned? ==> result.value == WithHostname(src.value, hostname)
  {
    var dataMap: Option<map<string, Json>> := None;
    if src.Some? && src.value.Obj? {
      dataMap := Some(src.value.fields);
    }
    if dataMap.None? {
      return Panicked;
    }
    var document := dataMap.value;
    if "storage" !in document {
      document := document["storage" := EMPTY];
    }
    if !document["storage"].Obj? {
      return Panicked;
    }
    var storage := document["storage"].fields;
    var files: Option<seq<Json>> := None;
    if "files" !in storage {
      files := Some([]);
    }
    if files.None? {
      return Panicked;
    }
    var newFile := map["filesystem" := Str("root"), "path" := Str(HOSTNAME_PATH), "mode" := Num(HOSTNAME_MODE)];
    newFile := newFile["contents" := Obj(map["source" := Str("data:," + hostname)])];
    storage := storage["files" := Arr(files.value + [Obj(newFile)])];
    document := document["storage" := Obj(storage)];
    assert newFile == HostnameFile(hostname).fields;
    assert files.value + [Obj(newFile)] == [HostnameFile(hostname)];
    assert storage == Member(src.value, "storage").GetOr(EMPTY).fields["files" := Arr([HostnameFile(hostname)])];
    assert document == WithHostname(src.value, hostname).fields;
    result := Returned(Obj(document));
  }

  const FILES_PATH: seq<string> := ["storage", "files"]

  /** The only change, at any depth, is the file list; nothing beside or outside it moves. */
  lemma HostnameFrame(src: Json, hostname: string, path: seq<string>)
    requires InDomain(Some(src))
    ensures Get(WithHostname(src, hostname), FILES_PATH) == Some(Arr([HostnameFile(hostname)]))
    ensures !(FILES_PATH <= path) && !(path <= FILES_PATH) ==> Get(WithHostname(src, hostname), path) == Get(src, path)
  {
    var r := WithHostname(src, hostname);
    assert Member(Member(r, "storage").value, "files") == Some(Arr([HostnameFile(hostname)]));
    assert Get(r, FILES_PATH) == Get(Member(r, "storage").value, ["files"]) by {
      assert FILES_PATH[1..] == ["files"];
    }
    assert Get(Member(r, "storage").value, ["files"]) == Get(Arr([HostnameFile(hostname)]), []) by {
      assert ["files"][1..] == [];
    }
    if !(FILES_PATH <= path) && !(path <= FILES_PATH) {
      assert path != [];
      if path[0] == "storage" {
        var rest := path[1..];
        assert path == ["storage"] + rest;
        assert rest != [] && rest[0] != "files";
        var before := Member(src, "storage").GetOr(EMPTY);
        assert Member(Member(r, "storage").value, rest[0]) == Member(before, rest[0]);
        assert Get(Member(r, "storage").value, rest) == Get(before, rest);
      } else {
        assert Member(r, path[0]) == Member(src, path[0]);
      }
    }
  }

  /** Its results lie outside its domain: a second application always panics. */
  lemma NeverTwice(src: Json, hostname: string)
    requires InDomain(Some(src))
    ensures !InDomain(Some(WithHostname(src, hostname)))
  {
    assert Member(WithHostname(src, hostname), "storage").value.Obj?;
  }

  // -------- data URLs, section 3 of RFC 2397 --------

  function HexValue(c: char): Option<int> {
    if '0' <= c <= '9' then Some(c as int - '0' as int)
    else if 'a' <= c <= 'f' then Some(c as int - 'a' as int + 10)
    else if 'A' <= c <= 'F' then Some(c as int - 'A' as int + 10)
    else None
  }

  /** Replaces each %XX by the octet it names; None when an escape is malformed. */
  function PercentDecode(s: string): Option<string> {
    if s == "" then Some("")
    else if s[0] != '%' then
      match PercentDecode(s[1..])
      case None => None
      case Some(rest) => Some([s[0]] + rest)
    else if |s| < 3 || HexValue(s[1]).None? || HexValue(s[2]).None? then None
    else
      match PercentDecode(s[3..])
      case None => None
      case Some(rest) => Some([(16 * HexValue(s[1]).value + HexValue(s[2]).value) as char] + rest)
  }

  function IndexOf(s: string, c: char): nat
    ensures IndexOf(s, c) <= |s|
  {
    if s == "" || s[0] == c then 0 else 1 + IndexOf(s[1..], c)
  }

  const SCHEME := "data:"
  const BASE64 := ";base64"

  /** The data of a `data:[<mediatype>],<data>` URL; base64 data is not decoded. */
  function DecodeDataURL(url: string): Option<string> {
    if !(SCHEME <= url) then None else
    var body := url[|SCHEME|..];
    var comma := IndexOf(body, ',');
    if comma == |body| || (|BASE64| <= comma && body[comma - |BASE64|..comma] == BASE64) then None
    else PercentDecode(body[comma + 1..])
  }

  lemma {:induction false} PercentFree(s: string)
    ensures PercentDecode(s).Some? ==> |PercentDecode(s).value| <= |s|
    ensures PercentDecode(s).Some? && '%' in s ==> |PercentDecode(s).value| < |s|
    ensures '%' !in s ==> PercentDecode(s) == Some(s)
  {
    if s != "" {
      if s[0] != '%' {
        PercentFree(s[1..]);
        assert s == [s[0]] + s[1..];
      } else if 3 <= |s| {
        PercentFree(s[3..]);
      }
    }
  }

  /**
   A node that reads the hostname file back gets the machine's name exactly when the name holds
   no percent sign; DNS names never do.
   */
  lemma HostnameRoundTrip(src: Json, name: string)
    requires InDomain(Some(src))
    ensures var files := Get(WithHostname(src, name), FILES_PATH);
            files.Some? && files.value.Arr? && |files.value.items| == 1 &&
            var file := files.value.items[0];
            Member(file, "path") == Some(Str("/etc/hostname")) && Member(file, "filesystem") == Some(Str("root")) &&
            Member(file, "mode") == Some(Num(420.0)) &&
            var source := Get(file, ["contents", "source"]);
            source.Some? && source.value.Str? &&
            (DecodeDataURL(source.value.text) == Some(name) <==> '%' !in name)
  {
    HostnameFrame(src, name, []);
    var file := HostnameFile(name);
    assert ["contents", "source"][1..] == ["source"] && ["source"][1..] == [];
    assert Get(file, ["contents", "source"]) == Get(Member(file, "contents").value, ["source"]);
    assert Get(Member(file, "contents").value, ["source"]) == Get(Str("data:," + name), []);
    var url := "data:," + name;
    assert url[|SCHEME|..] == "," + name;
    assert ("," + name)[1..] == name;
    PercentFree(name);
  }

  predicate DnsSafe(name: string) {
    forall c | c in name :: 'a' <= c <= 'z' || '0' <= c <= '9' || c == '-' || c == '.'
  }
}
