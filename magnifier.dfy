// The magnifier layer of the renderer: which magnifier segments are active
// at a frame time, the uniforms each one contributes, the border-colour
// parser and the uniform-buffer cache.
module Magnifier {
  import opened Wrappers
  import opened Ints
  import opened Text

  datatype Shape = Circle | Ellipse | RoundedRectangle

  /** `shape_to_float`: the shader's shape code. */
  function ShapeCode(s: Shape): real
  {
    match s
    case Circle => 0.0
    case Ellipse => 1.0
    case RoundedRectangle => 2.0
  }

  /** The three shapes get three different codes. */
  lemma {:induction false} ShapeCodesDistinct(a: Shape, b: Shape)
    ensures ShapeCode(a) == ShapeCode(b) <==> a == b
  {
  }

  // ------------------------------------------------------------ hex colours

  /** An RGBA colour with byte channels (channel / 255 is the shader value). */
  datatype Color = Color(r: u8, g: u8, b: u8, a: u8)

  const WHITE: Color := Color(255, 255, 255, 255)

  predicate IsAscii(s: string)
  {
    forall i :: 0 <= i < |s| ==> s[i] as int < 128
  }

  predicate IsHash(c: char) { c == '#' }

  /** `u8::from_str_radix(pair, 16)` for a two-character string: two hex digits, or '+' and one hex digit. */
  function HexPair(p: string): (r: Option<u8>)
    requires |p| == 2
    ensures r.Some? <==> (IsHexDigit(p[0]) || p[0] == '+') && IsHexDigit(p[1])
  {
    if IsHexDigit(p[0]) && IsHexDigit(p[1]) then Some((16 * HexValue(p[0]) + HexValue(p[1])) as u8)
    else if p[0] == '+' && IsHexDigit(p[1]) then Some(HexValue(p[1]) as u8)
    else None
  }

  /** The digits after the leading '#': six or eight characters, read as byte pairs; six digits mean full alpha. */
  function ParseDigits(h: string): (r: Option<Color>)
    ensures r.Some? ==> |h| == 6 || |h| == 8
    ensures r.Some? && |h| == 6 ==> r.value.a == 255
  {
    if |h| != 6 && |h| != 8 then None
    else
      match (HexPair(h[0..2]), HexPair(h[2..4]), HexPair(h[4..6]))
      case (Some(r), Some(g), Some(b)) =>
        if |h| == 8 then
          match HexPair(h[6..8])
          case Some(a) => Some(Color(r, g, b, a))
          case None => None
        else Some(Color(r, g, b, 255))
      case _ => None
  }

  /** `parse_hex_color`: all leading '#' are dropped, then the digits are read. */
  function ParseHexColor(hex: string): (r: Option<Color>)
    requires IsAscii(hex)
    ensures r.Some? ==> |TrimStart(hex, IsHash)| in {6, 8}
    ensures r.Some? && |TrimStart(hex, IsHash)| == 6 ==> r.value.a == 255
  {
    ParseDigits(TrimStart(hex, IsHash))
  }

  /** Two lower-case hex digits for a byte. */
  function HexByte(v: u8): (s: string)
    ensures |s| == 2 && IsHexDigit(s[0]) && IsHexDigit(s[1])
    ensures 16 * HexValue(s[0]) + HexValue(s[1]) == v as int
  {
    [HexDigit(v as nat / 16), HexDigit(v as nat % 16)]
  }

  /** A printed byte reads back as that byte. */
  lemma {:induction false} HexPairByte(v: u8)
    ensures HexPair(HexByte(v)) == Some(v)
  {
  }

  /** "#rrggbbaa". */
  function FormatHex(c: Color): (s: string)
    ensures |s| == 9
  {
    "#" + HexByte(c.r) + HexByte(c.g) + HexByte(c.b) + HexByte(c.a)
  }

  /** "#" followed by hex digits is ASCII, and dropping its '#' leaves the digits. */
  lemma {:induction false} HashedDigits(h: string)
    requires |h| > 0 && forall i :: 0 <= i < |h| ==> IsHexDigit(h[i])
    ensures IsAscii("#" + h) && TrimStart("#" + h, IsHash) == h
  {
    var s := "#" + h;
    forall i | 0 <= i < |s|
      ensures s[i] as int < 128
    {
      if i > 0 {
        assert s[i] == h[i - 1];
        assert IsHexDigit(h[i - 1]);
      }
    }
    assert s[1..] == h;
    assert TrimStart(s, IsHash) == TrimStart(h, IsHash);
  }

  /** Printing a colour as "#rrggbbaa" and parsing it back gives the colour. */
  lemma {:induction false} HexRoundTrip(c: Color)
    ensures IsAscii(FormatHex(c)) && ParseHexColor(FormatHex(c)) == Some(c)
  {
    var h := HexByte(c.r) + HexByte(c.g) + HexByte(c.b) + HexByte(c.a);
    assert FormatHex(c) == "#" + h;
    assert h[0..2] == HexByte(c.r) && h[2..4] == HexByte(c.g);
    assert h[4..6] == HexByte(c.b) && h[6..8] == HexByte(c.a);
    assert forall i :: 0 <= i < |h| ==> IsHexDigit(h[i]) by {
      forall i | 0 <= i < |h|
        ensures IsHexDigit(h[i])
      {
        var k := i / 2 * 2;
        assert h[i] == h[k..k + 2][i - k];
      }
    }
    HashedDigits(h);
    HexPairByte(c.r);
    HexPairByte(c.g);
    HexPairByte(c.b);
    HexPairByte(c.a);
  }

  /** Without the alpha pair the colour is opaque: "#rrggbb" reads back with alpha 255. */
  lemma {:induction false} SixDigitsOpaque(c: Color)
    ensures var s := "#" + HexByte(c.r) + HexByte(c.g) + HexByte(c.b);
      IsAscii(s) && ParseHexColor(s) == Some(Color(c.r, c.g, c.b, 255))
  {
    var h := HexByte(c.r) + HexByte(c.g) + HexByte(c.b);
    assert "#" + HexByte(c.r) + HexByte(c.g) + HexByte(c.b) == "#" + h;
    assert h[0..2] == HexByte(c.r) && h[2..4] == HexByte(c.g) && h[4..6] == HexByte(c.b);
    assert forall i :: 0 <= i < |h| ==> IsHexDigit(h[i]) by {
      forall i | 0 <= i < |h|
        ensures IsHexDigit(h[i])
      {
        var k := i / 2 * 2;
        assert h[i] == h[k..k + 2][i - k];
      }
    }
    HashedDigits(h);
    HexPairByte(c.r);
    HexPairByte(c.g);
    HexPairByte(c.b);
  }

  /** A digit count other than six or eight is rejected, as is a pair that is not hex. */
  lemma {:induction false} HexRejections()
    ensures ParseDigits("fff") == None
    ensures ParseDigits("zz0000") == None
  {
    assert "zz0000"[0..2] == "zz";
  }

  /** Any number of leading '#' is accepted: "##" + h reads as h does. */
  lemma {:induction false} LeadingHashesIgnored(h: string)
    requires IsAscii(h)
    ensures IsAscii("##" + h) && ParseHexColor("##" + h) == ParseHexColor(h)
  {
    HashPrefixAscii(h);
    HashPrefixAscii("#" + h);
    assert "##" + h == "#" + ("#" + h);
    HashDropped("#" + h);
    HashDropped(h);
  }

  lemma {:induction false} HashPrefixAscii(h: string)
    requires IsAscii(h)
    ensures IsAscii("#" + h)
  {
    var s := "#" + h;
    forall i | 0 <= i < |s|
      ensures s[i] as int < 128
    {
      if i > 0 { assert s[i] == h[i - 1]; }
    }
  }

  lemma {:induction false} HashDropped(h: string)
    ensures TrimStart("#" + h, IsHash) == TrimStart(h, IsHash)
  {
    assert ("#" + h)[1..] == h;
  }

  // --------------------------------------------------------------- prepare

  /** A magnifier segment of the project timeline, as the renderer reads it. */
  datatype Segment = Segment(
    start: real, end: real, enabled: bool,
    center: (real, real), radius: real, glassRadius: real,
    zoomAmount: real, shape: Shape, glassStrength: real,
    borderWidth: real, borderColor: string, feather: real)

  /** The per-magnifier uniforms handed to the shader. */
  datatype Uniforms = Uniforms(
    center: (real, real), radius: real, zoomAmount: real, shapeType: real,
    glassStrength: real, glassRadius: real, frameSize: (real, real), textureSize: (real, real),
    borderWidth: real, borderColor: Color, feather: real)

  /** Whether the segment shows at `time`: enabled, and `start <= time <= end`. */
  predicate ActiveAt(s: Segment, time: real)
  {
    s.enabled && s.start <= time <= s.end
  }

  function Min(a: real, b: real): real { if a <= b then a else b }

  /**
   * The border colour, white when the text does not parse. Non-ASCII text is
   * also white here, although the source's byte slicing panics on it when a
   * slice bound falls inside a multi-byte character.
   */
  function BorderColor(text: string): Color
  {
    if IsAscii(text) then ParseHexColor(text).UnwrapOr(WHITE) else WHITE
  }

  /** The uniforms of one segment for an output of `w` by `h` pixels. */
  function UniformsFor(s: Segment, w: nat, h: nat): (u: Uniforms)
  {
    var scale := Min(w as real, h as real);
    Uniforms(
      (s.center.0 * w as real, s.center.1 * h as real),
      s.radius * scale, s.zoomAmount, ShapeCode(s.shape),
      s.glassStrength, s.glassRadius * scale,
      (w as real, h as real), (w as real, h as real),
      s.borderWidth, BorderColor(s.borderColor), s.feather)
  }

  /** The uniforms of the active segments, in timeline order. */
  function ActiveUniforms(segments: seq<Segment>, time: real, w: nat, h: nat): seq<Uniforms>
  {
    if segments == [] then []
    else
      var last := segments[|segments| - 1];
      ActiveUniforms(segments[..|segments| - 1], time, w, h) +
        (if ActiveAt(last, time) then [UniformsFor(last, w, h)] else [])
  }

  /** The active segments of a timeline, in order. */
  function ActiveSegments(segments: seq<Segment>, time: real): (r: seq<Segment>)
    ensures forall s :: s in r <==> s in segments && ActiveAt(s, time)
  {
    if segments == [] then []
    else
      var last := segments[|segments| - 1];
      var r := ActiveSegments(segments[..|segments| - 1], time) + (if ActiveAt(last, time) then [last] else []);
      assert segments == segments[..|segments| - 1] + [last];
      r
  }

  /** The active uniforms are exactly those of the active segments, one each, in timeline order. */
  lemma {:induction false} ActiveUniformsOfActiveSegments(segments: seq<Segment>, time: real, w: nat, h: nat)
    ensures var a := ActiveSegments(segments, time);
      var u := ActiveUniforms(segments, time, w, h);
      |u| == |a| && forall k :: 0 <= k < |a| ==> u[k] == UniformsFor(a[k], w, h)
  {
    if segments != [] {
      ActiveUniformsOfActiveSegments(segments[..|segments| - 1], time, w, h);
    }
  }

  /**
   * The magnifier layer's CPU-side state: the uniforms of this frame's
   * active magnifiers, the uniforms last written to the GPU buffer
   * (`cached`), and how many buffer writes were issued.
   */
  class MagnifierLayer {
    var activeMagnifiers: seq<Uniforms>
    var cached: Option<Uniforms>
    var bufferWrites: nat

    constructor ()
      ensures activeMagnifiers == [] && cached == None && bufferWrites == 0
    {
      activeMagnifiers := [];
      cached := None;
      bufferWrites := 0;
    }

    /**
     * `prepare`: rebuilds the active list for `time` from the timeline's
     * segments (none without a timeline), then writes the first active
     * uniform to the buffer only when it differs from the cached one.
     */
    method Prepare(timeline: Option<seq<Segment>>, w: nat, h: nat, time: real)
      modifies this
      ensures var segments := timeline.UnwrapOr([]);
        activeMagnifiers == ActiveUniforms(segments, time, w, h)
      ensures activeMagnifiers == [] ==> cached == old(cached) && bufferWrites == old(bufferWrites)
      ensures activeMagnifiers != [] && old(cached) == Some(activeMagnifiers[0]) ==>
        cached == old(cached) && bufferWrites == old(bufferWrites)
      ensures activeMagnifiers != [] && old(cached) != Some(activeMagnifiers[0]) ==>
        cached == Some(activeMagnifiers[0]) && bufferWrites == old(bufferWrites) + 1
    {
      activeMagnifiers := [];
      var segments := timeline.UnwrapOr([]);
      var i := 0;
      while i < |segments|
        invariant 0 <= i <= |segments|
        invariant activeMagnifiers == ActiveUniforms(segments[..i], time, w, h)
        invariant cached == old(cached) && bufferWrites == old(bufferWrites)
      {
        var segment := segments[i];
        assert segments[..i + 1][..i] == segments[..i];
        if segment.enabled && !(time < segment.start) && !(time > segment.end) {
          activeMagnifiers := activeMagnifiers + [UniformsFor(segment, w, h)];
        }
        i := i + 1;
      }
      assert segments[..i] == segments;
      if activeMagnifiers != [] {
        var first := activeMagnifiers[0];
        if cached != Some(first) {
          bufferWrites := bufferWrites + 1;
          cached := Some(first);
        }
      }
    }
  }

  /** With no timeline, no magnifier is active. */
  lemma {:induction false} NoTimelineNoMagnifier(time: real, w: nat, h: nat)
    ensures ActiveUniforms(None.UnwrapOr([]), time, w, h) == []
  {
  }
}
