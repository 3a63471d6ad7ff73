/**
 * Where the bridge looks for audio in an agent message
 * (getNestedString and extractElevenLabsAudioBase64 in
 * twilio-media-stream/index.ts): nine key paths probed in a fixed order.
 */
module AudioExtract {
  import opened Wrappers
  import opened JsonValues

  /** The value reached by following `path` from `v`, if every step lands on an object holding the key. */
  function Walk(v: Json, path: seq<string>): Option<Json>
  {
    if path == [] then Some(v)
    else
      match v
      case JObj(m) => if path[0] in m then Walk(m[path[0]], path[1..]) else None
      case _ => None
  }

  /** The string at the end of `path`, or `None` (the source's `null`). */
  function NestedString(v: Json, path: seq<string>): Option<string>
  {
    match Walk(v, path)
    case Some(JStr(s)) => Some(s)
    case _ => None
  }

  /** Taking one more step is `Get` on what the shorter path reached. */
  lemma {:induction false} WalkSnoc(v: Json, path: seq<string>, key: string)
    ensures Walk(v, path + [key]) == if Walk(v, path).Some? then Get(Walk(v, path), key) else None
  {
    if path != [] {
      match v
      case JObj(m) =>
        assert (path + [key])[1..] == path[1..] + [key];
        if path[0] in m {
          WalkSnoc(m[path[0]], path[1..], key);
        }
      case _ =>
    }
  }

  /** Following `p + q` is following `p`, then `q` from where `p` ended. */
  lemma {:induction false} WalkAppend(v: Json, p: seq<string>, q: seq<string>)
    ensures Walk(v, p + q) == if Walk(v, p).Some? then Walk(Walk(v, p).value, q) else None
  {
    if p == [] {
      assert p + q == q;
    } else {
      assert (p + q)[0] == p[0] && (p + q)[1..] == p[1..] + q;
      match v
      case JObj(m) =>
        if p[0] in m {
          WalkAppend(m[p[0]], p[1..], q);
        }
      case _ =>
    }
  }

  /** `getNestedString`: walks a `current` reference down the path. */
  method GetNestedString(source: Json, path: seq<string>) returns (r: Option<string>)
    ensures r == NestedString(source, path)
  {
    var current := source;
    var i := 0;
    while i < |path|
      invariant 0 <= i <= |path|
      invariant Walk(source, path[..i]) == Some(current)
    {
      var key := path[i];
      WalkSnoc(source, path[..i], key);
      assert path[..i + 1] == path[..i] + [key];
      if !current.JObj? || key !in current.fields {
        WalkAppend(source, path[..i + 1], path[i + 1..]);
        assert path[..i + 1] + path[i + 1..] == path;
        return None;
      }
      current := current.fields[key];
      i := i + 1;
    }
    assert path[..i] == path;
    r := if current.JStr? then Some(current.s) else None;
  }

  /** The candidate paths, highest priority first. */
  function Candidates(): seq<seq<string>>
  {
    [ ["audio_event", "audio_base_64"],
      ["audio_event", "audioBase64"],
      ["audio", "audio_base_64"],
      ["audio", "audioBase64"],
      ["audio", "base64"],
      ["audio", "chunk"],
      ["audio_base_64"],
      ["audioBase64"],
      ["audio_chunk"] ]
  }

  /** A path yields a non-empty string (`if (value)` on a string). */
  predicate Hit(data: Json, path: seq<string>)
  {
    NestedString(data, path).Some? && NestedString(data, path).value != ""
  }

  /** The first hit among `paths`, in order. */
  function FirstAudio(data: Json, paths: seq<seq<string>>): Option<string>
  {
    if paths == [] then None
    else if Hit(data, paths[0]) then NestedString(data, paths[0])
    else FirstAudio(data, paths[1..])
  }

  /** The first-hit search finds the earliest path that holds a non-empty string, and nothing when none does. */
  lemma {:induction false} FirstAudioSpec(data: Json, paths: seq<seq<string>>)
    ensures FirstAudio(data, paths).None? <==> forall i :: 0 <= i < |paths| ==> !Hit(data, paths[i])
    ensures FirstAudio(data, paths).Some? ==>
      exists i :: 0 <= i < |paths| && Hit(data, paths[i])
        && FirstAudio(data, paths) == NestedString(data, paths[i])
        && forall j :: 0 <= j < i ==> !Hit(data, paths[j])
  {
    if paths != [] {
      FirstAudioSpec(data, paths[1..]);
      if !Hit(data, paths[0]) {
        assert forall i :: 1 <= i < |paths| ==> paths[i] == paths[1..][i - 1];
        if FirstAudio(data, paths).Some? {
          var i :| 0 <= i < |paths[1..]| && Hit(data, paths[1..][i])
            && FirstAudio(data, paths[1..]) == NestedString(data, paths[1..][i])
            && forall j :: 0 <= j < i ==> !Hit(data, paths[1..][j]);
          assert Hit(data, paths[i + 1]);
        }
      } else {
        assert Hit(data, paths[0]);
      }
    }
  }

  /** A message whose only audio field is the top-level `audio_chunk` yields that chunk. */
  lemma OnlyChunk(data: Json, chunk: string)
    requires data == JObj(map["audio_chunk" := JStr(chunk)]) && chunk != ""
    ensures FirstAudio(data, Candidates()) == Some(chunk)
  {
    var c := Candidates();
    var k := 0;
    while k < 8
      invariant 0 <= k <= 8
      invariant FirstAudio(data, c) == FirstAudio(data, c[k..])
    {
      assert c[k][0] != "audio_chunk";
      assert c[k..][0] == c[k] && c[k..][1..] == c[k + 1..];
      assert !Hit(data, c[k..][0]);
      k := k + 1;
    }
    assert c[8..] == [["audio_chunk"]];
    assert Walk(data, ["audio_chunk"]) == Walk(JStr(chunk), []);
  }

  /** `extractElevenLabsAudioBase64`: probes the candidates in order. */
  method ExtractAudio(data: Json) returns (r: Option<string>)
    ensures r == FirstAudio(data, Candidates())
    ensures r.Some? ==> r.value != ""
  {
    var candidates := Candidates();
    var k := 0;
    while k < |candidates|
      invariant 0 <= k <= |candidates|
      invariant FirstAudio(data, candidates) == FirstAudio(data, candidates[k..])
    {
      var value := GetNestedString(data, candidates[k]);
      assert candidates[k..][1..] == candidates[k + 1..];
      if value.Some? && value.value != "" {
        return value;
      }
      k := k + 1;
    }
    return None;
  }
}
