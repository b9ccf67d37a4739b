/** The pure logic inside `main` of `src/sender/sender.js`: which codecs are
    offered, in which order, and how a `params` message changes the sender's
    parameters and track. The WebRTC objects are inputs and recorded effects. */
module Sender {
  import opened Wire

  /** `String.prototype.split` with a one-character separator: the pieces
      between separators, empty ones included, so the result is never empty. */
  function Split(s: string, sep: char): (parts: seq<string>)
    ensures |parts| >= 1
    ensures forall p | p in parts :: sep !in p
    decreases |s|
  {
    if s == [] then [[]]
    else
      var rest := Split(s[1..], sep);
      if s[0] == sep then [[]] + rest
      else [[s[0]] + rest[0]] + rest[1..]
  }

  /** `Array.prototype.join` with a one-character separator. */
  function Join(parts: seq<string>, sep: char): string
    requires |parts| >= 1
    decreases |parts|
  {
    if |parts| == 1 then parts[0] else parts[0] + [sep] + Join(parts[1..], sep)
  }

  lemma {:induction false} JoinSplit(s: string, sep: char)
    ensures Join(Split(s, sep), sep) == s
    decreases |s|
  {
    if s != [] {
      JoinSplit(s[1..], sep);
      var rest := Split(s[1..], sep);
      if s[0] == sep {
        assert ([[]] + rest)[1..] == rest;
      } else {
        var parts := [[s[0]] + rest[0]] + rest[1..];
        if |rest| == 1 {
          assert parts == [[s[0]] + rest[0]];
        } else {
          assert parts[1..] == rest[1..];
          assert Join(rest, sep) == rest[0] + [sep] + Join(rest[1..], sep);
        }
      }
    }
  }

  /** Splitting a separator-free piece in front of more text extends the first
      piece of the rest. */
  lemma {:induction false} SplitPrefix(p: string, t: string, sep: char)
    requires sep !in p
    ensures Split(p + t, sep) == [p + Split(t, sep)[0]] + Split(t, sep)[1..]
    decreases |p|
  {
    if p == [] {
      var tail := Split(t, sep);
      assert p + t == t && p + tail[0] == tail[0];
      assert tail == [tail[0]] + tail[1..];
    } else {
      assert p[0] in p;
      assert (p + t)[0] == p[0] && (p + t)[1..] == p[1..] + t;
      SplitPrefix(p[1..], t, sep);
      var tail := Split(t, sep);
      var rest := Split(p[1..] + t, sep);
      assert rest[0] == p[1..] + tail[0];
      assert rest[1..] == tail[1..];
      assert [p[0]] + (p[1..] + tail[0]) == p + tail[0];
    }
  }

  lemma {:induction false} SplitJoin(parts: seq<string>, sep: char)
    requires |parts| >= 1 && forall p | p in parts :: sep !in p
    ensures Split(Join(parts, sep), sep) == parts
    decreases |parts|
  {
    if |parts| == 1 {
      SplitPrefix(parts[0], [], sep);
      assert parts[0] + [] == parts[0];
    } else {
      var tail := Join(parts[1..], sep);
      SplitJoin(parts[1..], sep);
      assert parts[0] + [sep] + tail == parts[0] + ([sep] + tail);
      SplitPrefix(parts[0], [sep] + tail, sep);
      assert ([sep] + tail)[1..] == tail;
      assert parts[0] + [] == parts[0];
    }
  }

  /** An `RTCRtpCodec` as `getCapabilities` lists it. */
  datatype Codec = Codec(mimeType: string, clockRate: nat, sdpFmtpLine: Option<string>)

  /** An entry of `codecPreference`: a MIME type and, optionally, the
      `sdpFmtpLine` options a codec must all have. */
  datatype Preference = Preference(mimeType: string, sdpFmtpLine: Option<seq<string>>)

  const CodecPreference: seq<Preference> := [
    Preference("video/VP9", Some(["profile-id=2"])),
    Preference("video/VP9", None),
    Preference("video/VP8", None),
    Preference("video/H264", Some(["profile-level-id=640033"])),
    Preference("video/H264", Some(["profile-level-id=4d0033"])),
    Preference("video/H264", Some(["profile-level-id=42e01f"])),
    Preference("video/H264", None)
  ]

  /** The MIME types `getSupportedCodecs` drops. */
  const Unsupported: seq<string> := ["video/red", "video/ulpfec", "video/rtx"]

  predicate IsUnsupported(c: Codec)
  {
    c.mimeType in Unsupported
  }

  /** The capability list without the unsupported codecs, in the same order. */
  function Supported(s: seq<Codec>): (r: seq<Codec>)
    ensures |r| <= |s|
    ensures forall c :: c in r <==> c in s && !IsUnsupported(c)
  {
    if s == [] then []
    else Supported(s[..|s| - 1]) + (if IsUnsupported(s[|s| - 1]) then [] else [s[|s| - 1]])
  }

  /** Filtering commutes with concatenation, so the kept codecs keep their order. */
  lemma {:induction false} SupportedAppend(a: seq<Codec>, b: seq<Codec>)
    ensures Supported(a + b) == Supported(a) + Supported(b)
    decreases |b|
  {
    if b == [] {
      assert a + b == a;
    } else {
      var b' := b[..|b| - 1];
      assert (a + b)[..|a + b| - 1] == a + b';
      SupportedAppend(a, b');
    }
  }

  /** A list with no dropped type passes the filter unchanged. */
  lemma {:induction false} SupportedKeepsAllowed(s: seq<Codec>)
    requires forall c | c in s :: !IsUnsupported(c)
    ensures Supported(s) == s
  {
    if s != [] {
      var init, last := s[..|s| - 1], s[|s| - 1];
      assert s == init + [last];
      SupportedKeepsAllowed(init);
    }
  }

  /** `getSupportedCodecs`: the `forEach` that pushes every codec but the
      unsupported ones. */
  method GetSupportedCodecs(codecs: seq<Codec>) returns (result: seq<Codec>)
    ensures result == Supported(codecs)
  {
    result := [];
    for i := 0 to |codecs|
      invariant result == Supported(codecs[..i])
    {
      assert codecs[..i + 1][..i] == codecs[..i];
      if codecs[i].mimeType in Unsupported {
        continue;
      }
      result := result + [codecs[i]];
    }
    assert codecs[..|codecs|] == codecs;
  }

  /** One entry test of `getCodecPriority`: same MIME type, and either no option is required or the
      codec has an `sdpFmtpLine` whose `;`-separated options include them all. */
  predicate Matches(c: Codec, p: Preference): (r: bool)
    // a different MIME type never matches
    ensures r ==> c.mimeType == p.mimeType
    // an entry without required options matches every codec of its type
    ensures c.mimeType == p.mimeType && p.sdpFmtpLine.None? ==> r
    // an entry with required options never matches a codec without `sdpFmtpLine`
    ensures p.sdpFmtpLine.Some? && c.sdpFmtpLine.None? ==> !r
  {
    && c.mimeType == p.mimeType
    && (p.sdpFmtpLine.Some? ==>
          c.sdpFmtpLine.Some? && forall o | o in p.sdpFmtpLine.value :: o in Split(c.sdpFmtpLine.value, ';'))
  }

  function PriorityFrom(c: Codec, i: nat): (r: nat)
    requires i <= |CodecPreference|
    ensures i <= r <= |CodecPreference|
    ensures r < |CodecPreference| ==> Matches(c, CodecPreference[r])
    ensures forall j | i <= j < r :: !Matches(c, CodecPreference[j])
    decreases |CodecPreference| - i
  {
    if i == |CodecPreference| then i
    else if Matches(c, CodecPreference[i]) then i
    else PriorityFrom(c, i + 1)
  }

  /** The options are read into a `Set`, so two codecs of one type whose
      `sdpFmtpLine`s list the same options, in any order and with any
      repetition, get the same priority. */
  lemma {:induction false} PriorityFromSameOptions(c: Codec, d: Codec, i: nat)
    requires i <= |CodecPreference|
    requires c.mimeType == d.mimeType && c.sdpFmtpLine.Some? && d.sdpFmtpLine.Some?
    requires forall o :: o in Split(c.sdpFmtpLine.value, ';') <==> o in Split(d.sdpFmtpLine.value, ';')
    ensures PriorityFrom(c, i) == PriorityFrom(d, i)
    decreases |CodecPreference| - i
  {
    if i < |CodecPreference| {
      assert Matches(c, CodecPreference[i]) == Matches(d, CodecPreference[i]);
      PriorityFromSameOptions(c, d, i + 1);
    }
  }

  /** The index of the first matching preference, or the table length when
      none matches. */
  function Priority(c: Codec): (r: nat)
    ensures r <= |CodecPreference|
  {
    PriorityFrom(c, 0)
  }

  /** `Priority` is the first matching index, and the table length exactly
      when no preference matches. */
  lemma PriorityIsFirstMatch(c: Codec)
    ensures var r := Priority(c);
            && (r < |CodecPreference| ==> Matches(c, CodecPreference[r]))
            && (forall j | 0 <= j < r :: !Matches(c, CodecPreference[j]))
            && (r == |CodecPreference| <==> forall j | 0 <= j < |CodecPreference| :: !Matches(c, CodecPreference[j]))
  {
    var _ := PriorityFrom(c, 0);
  }

  /** The `matches &= configs.has(option)` loop: it visits every option. */
  method AllPresent(options: seq<string>, configs: seq<string>) returns (matches: bool)
    ensures matches <==> forall o | o in options :: o in configs
  {
    matches := true;
    for k := 0 to |options|
      invariant matches <==> forall j | 0 <= j < k :: options[j] in configs
    {
      matches := matches && options[k] in configs;
    }
  }

  /** `getCodecPriority`: the loop over `codecPreference` with its early returns. */
  method GetCodecPriority(codec: Codec) returns (p: nat)
    ensures p <= |CodecPreference|
    ensures p < |CodecPreference| ==> Matches(codec, CodecPreference[p])
    ensures forall j | 0 <= j < p :: !Matches(codec, CodecPreference[j])
    ensures p == Priority(codec)
  {
    var i := 0;
    while i < |CodecPreference|
      invariant i <= |CodecPreference|
      invariant forall j | 0 <= j < i :: !Matches(codec, CodecPreference[j])
    {
      var pref := CodecPreference[i];
      if codec.mimeType != pref.mimeType {
        i := i + 1;
        continue;
      }
      if pref.sdpFmtpLine.None? {
        return i;
      }
      if codec.sdpFmtpLine.None? {
        i := i + 1;
        continue;
      }
      var configs := Split(codec.sdpFmtpLine.value, ';');
      var matches := AllPresent(pref.sdpFmtpLine.value, configs);
      if matches {
        return i;
      }
      i := i + 1;
    }
    return |CodecPreference|;
  }

  lemma VP8Priority(c: Codec)
    requires c.mimeType == "video/VP8"
    ensures Priority(c) == 2
  {
    assert "video/VP9" != "video/VP8" by { assert "video/VP9"[8] != "video/VP8"[8]; }
  }

  lemma VP9Priority(c: Codec)
    requires c.mimeType == "video/VP9"
    ensures Priority(c) == (if c.sdpFmtpLine.Some? && "profile-id=2" in Split(c.sdpFmtpLine.value, ';') then 0 else 1)
  {
  }

  lemma H264Priority(c: Codec)
    requires c.mimeType == "video/H264"
    ensures 3 <= Priority(c) <= 6
  {
    assert "video/VP9" != "video/H264" by { assert "video/VP9"[6] != "video/H264"[6]; }
    assert "video/VP8" != "video/H264" by { assert "video/VP8"[6] != "video/H264"[6]; }
  }

  /** Every unknown MIME type, the dropped ones included, gets the table length. */
  lemma OtherPriority(c: Codec)
    requires c.mimeType != "video/VP9" && c.mimeType != "video/VP8" && c.mimeType != "video/H264"
    ensures Priority(c) == |CodecPreference|
  {
  }

  predicate SortedByPriority(s: seq<Codec>)
  {
    forall i, j | 0 <= i < j < |s| :: Priority(s[i]) <= Priority(s[j])
  }

  /** Inserts `x` before the first element that is not of higher priority
      than `x`, i.e. behind everything that sorts strictly before it. */
  function Insert(x: Codec, s: seq<Codec>): (r: seq<Codec>)
    ensures multiset(r) == multiset(s) + multiset{x}
    ensures forall e :: e in r <==> e == x || e in s
  {
    if s == [] || Priority(x) <= Priority(s[0]) then [x] + s
    else
      assert s == [s[0]] + s[1..];
      [s[0]] + Insert(x, s[1..])
  }

  lemma TailSorted(s: seq<Codec>)
    requires s != [] && SortedByPriority(s)
    ensures SortedByPriority(s[1..])
    ensures forall e | e in s[1..] :: Priority(s[0]) <= Priority(e)
  {
    var tail := s[1..];
    forall i, j | 0 <= i < j < |tail| ensures Priority(tail[i]) <= Priority(tail[j]) {
      assert tail[i] == s[i + 1] && tail[j] == s[j + 1];
    }
  }

  lemma ConsSorted(y: Codec, r: seq<Codec>)
    requires SortedByPriority(r)
    requires forall e | e in r :: Priority(y) <= Priority(e)
    ensures SortedByPriority([y] + r)
  {
    var r' := [y] + r;
    forall i, j | 0 <= i < j < |r'| ensures Priority(r'[i]) <= Priority(r'[j]) {
      assert r'[j] == r[j - 1];
      if i > 0 {
        assert r'[i] == r[i - 1];
      }
    }
  }

  lemma {:induction false} InsertSorted(x: Codec, s: seq<Codec>)
    requires SortedByPriority(s)
    ensures SortedByPriority(Insert(x, s))
  {
    if s != [] && Priority(x) > Priority(s[0]) {
      TailSorted(s);
      InsertSorted(x, s[1..]);
      ConsSorted(s[0], Insert(x, s[1..]));
    }
  }

  /** `codecs.sort((a, b) => getCodecPriority(a) - getCodecPriority(b))`:
      `Array.prototype.sort` is stable, and this insertion sort is too. */
  function SortByPriority(s: seq<Codec>): (r: seq<Codec>)
    ensures multiset(r) == multiset(s)
    ensures SortedByPriority(r)
  {
    if s == [] then []
    else
      var rest := SortByPriority(s[1..]);
      InsertSorted(s[0], rest);
      assert s == [s[0]] + s[1..];
      Insert(s[0], rest)
  }

  /** The codecs of priority `k`, in order. */
  function OfPriority(s: seq<Codec>, k: nat): seq<Codec>
  {
    if s == [] then [] else (if Priority(s[0]) == k then [s[0]] else []) + OfPriority(s[1..], k)
  }

  /** `OfPriority` on a list with a known first element. */
  lemma OfPriorityCons(c: Codec, s: seq<Codec>, k: nat)
    ensures OfPriority([c] + s, k) == (if Priority(c) == k then [c] else []) + OfPriority(s, k)
  {
    assert ([c] + s)[1..] == s;
  }

  lemma {:induction false} InsertStable(x: Codec, s: seq<Codec>, k: nat)
    ensures OfPriority(Insert(x, s), k) == OfPriority([x] + s, k)
  {
    if s != [] && Priority(x) > Priority(s[0]) {
      var rest := s[1..];
      assert s == [s[0]] + rest;
      var px := if Priority(x) == k then [x] else [];
      var ps := if Priority(s[0]) == k then [s[0]] else [];
      assert px == [] || ps == [];
      calc {
        OfPriority(Insert(x, s), k);
        { assert Insert(x, s) == [s[0]] + Insert(x, rest); OfPriorityCons(s[0], Insert(x, rest), k); }
        ps + OfPriority(Insert(x, rest), k);
        { InsertStable(x, rest, k); OfPriorityCons(x, rest, k); }
        ps + (px + OfPriority(rest, k));
        { assert ps + px == px + ps; }
        px + (ps + OfPriority(rest, k));
        { OfPriorityCons(s[0], rest, k); }
        px + OfPriority(s, k);
        { OfPriorityCons(x, s, k); }
        OfPriority([x] + s, k);
      }
    }
  }

  /** Codecs of equal priority keep their relative order. */
  lemma {:induction false} SortStable(s: seq<Codec>, k: nat)
    ensures OfPriority(SortByPriority(s), k) == OfPriority(s, k)
  {
    if s != [] {
      SortStable(s[1..], k);
      InsertStable(s[0], SortByPriority(s[1..]), k);
      assert ([s[0]] + SortByPriority(s[1..]))[1..] == SortByPriority(s[1..]);
    }
  }

  /** `getSupportedCodecs()` followed by `codecs.sort` on the priority difference. */
  method OrderCodecs(capabilities: seq<Codec>) returns (codecs: seq<Codec>)
    ensures multiset(codecs) == multiset(Supported(capabilities))
    ensures SortedByPriority(codecs)
    ensures forall c :: c in codecs <==> c in capabilities && !IsUnsupported(c)
    ensures forall k: nat :: OfPriority(codecs, k) == OfPriority(Supported(capabilities), k)
  {
    var supported := GetSupportedCodecs(capabilities);
    codecs := SortByPriority(supported);
    forall k: nat ensures OfPriority(codecs, k) == OfPriority(supported, k) {
      SortStable(supported, k);
    }
    assert forall c :: c in codecs <==> c in multiset(supported);
  }

  /** An entry of `parameters.encodings`. */
  datatype Encoding = Encoding(maxBitrate: Option<real>, otherFields: seq<(string, string)>)

  /** What `sender.getParameters()` returns; `encodings` is `None` when falsy. */
  datatype Parameters = Parameters(encodings: Option<seq<Encoding>>, otherFields: seq<(string, string)>)

  /** What the bitrate half of the `params` handler does: nothing,
      `setParameters` with new parameters, or a `TypeError` on an empty
      `encodings` array. */
  datatype Update = NotCalled | SetParameters(parameters: Parameters) | TypeError

  /** `maxBitrate * 1000`, where `null` counts as 0. */
  function Scaled(maxBitrate: Field<real>): (r: real)
    // kilobits per second in, bits per second out
    ensures maxBitrate.Present? ==> r / 1000.0 == maxBitrate.value
    // `null * 1000` is 0 in JavaScript
    ensures r == 0.0 <==> !maxBitrate.Present? || maxBitrate.value == 0.0
  {
    match maxBitrate
    case Present(x) => 1000.0 * x
    case _ => 0.0
  }

  /** The `maxBitrate` half of the `params` handler, on the parameters `p`
      that `getParameters` returned. */
  function UpdateParameters(p: Parameters, maxBitrate: Field<real>): (u: Update)
    ensures u.NotCalled? <==> maxBitrate.Absent?
    ensures u.TypeError? <==> !maxBitrate.Absent? && p.encodings == Some([])
    ensures u.SetParameters? ==>
              var was := if p.encodings.Some? then p.encodings.value else [Encoding(None, [])];
              var e := u.parameters.encodings;
              && u.parameters.otherFields == p.otherFields
              && e.Some? && |e.value| == |was| && e.value[1..] == was[1..]
              && e.value[0].otherFields == was[0].otherFields
              && (e.value[0].maxBitrate.None? <==> maxBitrate == Present(0.0))
              && (maxBitrate != Present(0.0) ==> e.value[0].maxBitrate == Some(Scaled(maxBitrate)))
  {
    if maxBitrate.Absent? then NotCalled
    else
      var encodings := if p.encodings.None? then [Encoding(None, [])] else p.encodings.value;
      if encodings == [] then TypeError
      else
        var first := if maxBitrate == Present(0.0) then encodings[0].(maxBitrate := None)
                     else encodings[0].(maxBitrate := Some(Scaled(maxBitrate)));
        SetParameters(p.(encodings := Some([first] + encodings[1..])))
  }

  /** The original camera stream and its clone with the `text` content hint. */
  datatype Stream = Camera | Crisp

  /** The stream a `crisp` field asks for: missing keeps the current one, a
      truthy value asks for the clone, `false` and `null` for the camera. */
  function Requested(current: Stream, crisp: Field<bool>): (s: Stream)
    ensures crisp.Absent? ==> s == current
    ensures !crisp.Absent? ==> (s == Crisp <==> crisp == Present(true))
  {
    match crisp
    case Absent => current
    case Null => Camera
    case Present(b) => if b then Crisp else Camera
  }

  /** The `params` handler with its captured `currentStream`, and the calls it
      makes on the sender. */
  class ParamsHandler {
    var currentStream: Stream
    var setParametersCalls: seq<Parameters>
    var replaceTrackCalls: seq<Stream>

    constructor ()
      ensures currentStream == Camera && setParametersCalls == [] && replaceTrackCalls == []
    {
      currentStream := Camera;
      setParametersCalls := [];
      replaceTrackCalls := [];
    }

    /** One `params` message; `parameters` is what `getParameters` returns. */
    method OnParams(maxBitrate: Field<real>, crisp: Field<bool>, parameters: Parameters) returns (threw: bool)
      modifies this
      ensures var u := UpdateParameters(parameters, maxBitrate);
              && (threw <==> u.TypeError?)
              && setParametersCalls == old(setParametersCalls) + (if u.SetParameters? then [u.parameters] else [])
      ensures threw ==> currentStream == old(currentStream) && replaceTrackCalls == old(replaceTrackCalls)
      ensures !threw ==> currentStream == Requested(old(currentStream), crisp)
      ensures !threw ==> replaceTrackCalls == old(replaceTrackCalls)
                                            + (if currentStream != old(currentStream) then [currentStream] else [])
    {
      threw := false;
      if !maxBitrate.Absent? {
        var p := parameters;
        if p.encodings.None? {
          p := p.(encodings := Some([Encoding(None, [])]));
        }
        var encodings := p.encodings.value;
        if |encodings| == 0 {
          return true;
        }
        if maxBitrate == Present(0.0) {
          encodings := encodings[0 := encodings[0].(maxBitrate := None)];
        } else {
          encodings := encodings[0 := encodings[0].(maxBitrate := Some(Scaled(maxBitrate)))];
        }
        p := p.(encodings := Some(encodings));
        assert encodings == [encodings[0]] + encodings[1..];
        setParametersCalls := setParametersCalls + [p];
      }
      if !crisp.Absent? {
        if crisp == Present(true) {
          if currentStream != Crisp {
            replaceTrackCalls := replaceTrackCalls + [Crisp];
            currentStream := Crisp;
          }
        } else {
          if currentStream != Camera {
            replaceTrackCalls := replaceTrackCalls + [Camera];
            currentStream := Camera;
          }
        }
      }
    }
  }
}
