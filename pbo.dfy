/** Tutorial 6.1: the pixel buffer a CPU-side graphics pipe writes into.
    GLPbo keeps the buffer's dimensions, its pixel and byte counts, the
    clear colour and the mapped pixel array, and emulates glClearColor and
    glClear(GL_COLOR_BUFFER_BIT) on that array. */
module Pbo {

  /** GLubyte. */
  newtype Byte = x: int | 0 <= x < 256

  /** GLPbo::Color: four 8-bit components, red first. */
  datatype Color = Color(r: Byte, g: Byte, b: Byte, a: Byte)

  /** The Color constructor, with the source's default arguments. */
  function MakeColor(re: Byte := 0, gr: Byte := 0, bl: Byte := 0, al: Byte := 255): (c: Color)
    ensures c.r == re && c.g == gr && c.b == bl && c.a == al
  {
    Color(re, gr, bl, al)
  }

  /** A default-constructed colour is opaque black, and a colour given only
      red, green and blue is opaque. */
  lemma ColorDefaults(re: Byte, gr: Byte, bl: Byte)
    ensures MakeColor() == Color(0, 0, 0, 255)
    ensures MakeColor(re, gr, bl) == Color(re, gr, bl, 255)
  {
  }

  const White: Color := Color(255, 255, 255, 255)

  /** The union's `val` member: the same four bytes as an array, r first. */
  function Val(c: Color): (v: seq<Byte>)
    ensures |v| == 4
  {
    [c.r, c.g, c.b, c.a]
  }

  /** Reading the union through its `r, g, b, a` members after writing `val`. */
  function FromVal(v: seq<Byte>): Color
    requires |v| == 4
  {
    Color(v[0], v[1], v[2], v[3])
  }

  /** The two views of a Color name the same bytes: each is recovered from
      the other. */
  lemma ValRoundTrip(c: Color, v: seq<Byte>)
    requires |v| == 4
    ensures FromVal(Val(c)) == c
    ensures Val(FromVal(v)) == v
  {
  }

  /** The bytes of a run of pixels, four per pixel in r, g, b, a order. */
  function Bytes(pixels: seq<Color>): (bytes: seq<Byte>)
    ensures |bytes| == 4 * |pixels|
  {
    if pixels == [] then [] else Val(pixels[0]) + Bytes(pixels[1..])
  }

  /** Byte 4i + k of a run of pixels is component k of pixel i. */
  lemma {:induction false} BytesLayout(pixels: seq<Color>, i: nat, k: nat)
    requires i < |pixels| && k < 4
    ensures Bytes(pixels)[4 * i + k] == Val(pixels[i])[k]
    decreases |pixels|
  {
    if i > 0 {
      BytesLayout(pixels[1..], i - 1, k);
    }
  }

  /** Every pixel of the buffer holds colour c. */
  ghost predicate Filled(pixels: seq<Color>, c: Color) {
    forall i :: 0 <= i < |pixels| ==> pixels[i] == c
  }

  /** A buffer filled with one colour is, byte for byte, that colour's four
      bytes repeated. */
  lemma FilledBytes(pixels: seq<Color>, c: Color, i: nat, k: nat)
    requires Filled(pixels, c) && i < |pixels| && k < 4
    ensures Bytes(pixels)[4 * i + k] == Val(c)[k]
  {
    BytesLayout(pixels, i, k);
  }

  /** GLPbo's static state. `ptrToPbo` stands for the PBO's image store as
      glMapNamedBuffer exposes it. */
  class GLPbo {
    var width: int
    var height: int
    var pixelCnt: int
    var byteCnt: int
    var clearClr: Color
    var ptrToPbo: array<Color>

    /** The bookkeeping init establishes: the counts match the dimensions
        and the mapped store holds exactly pixelCnt pixels. */
    predicate Valid()
      reads this
    {
      0 <= width && 0 <= height && pixelCnt == width * height
      && byteCnt == 4 * pixelCnt && ptrToPbo.Length == pixelCnt
    }

    /** The statics before init: zero sizes, no store and a
        default-constructed clear colour. */
    constructor ()
      ensures Valid() && width == 0 && height == 0
      ensures clearClr == MakeColor()
    {
      width, height, pixelCnt, byteCnt := 0, 0, 0, 0;
      clearClr := MakeColor();
      ptrToPbo := new Color[0];
    }

    /** set_clear_color(Color). */
    method SetClearColor(clr: Color)
      modifies this`clearClr
      ensures clearClr == clr
    {
      clearClr := clr;
    }

    /** set_clear_color(r, g, b, a = 255). */
    method SetClearColorRgba(r: Byte, g: Byte, b: Byte, a: Byte := 255)
      modifies this`clearClr
      ensures clearClr == Color(r, g, b, a)
    {
      clearClr := MakeColor(r, g, b, a);
    }

    /** clear_color_buffer: every one of the pixelCnt pixels of the mapped
        store gets the clear colour; nothing else is written. */
    method ClearColorBuffer()
      requires Valid()
      modifies ptrToPbo
      ensures Filled(ptrToPbo[..], clearClr)
    {
      var i := 0;
      while i < pixelCnt
        invariant 0 <= i <= pixelCnt
        invariant forall j :: 0 <= j < i ==> ptrToPbo[j] == clearClr
      {
        ptrToPbo[i] := clearClr;
        i := i + 1;
      }
    }

    /** The bookkeeping of init(w, h): dimensions, counts, a white clear
        colour and a store of w·h pixels, cleared. Creating the buffer and
        texture objects, mapping and unmapping, and the quad and shader setup
        are GL calls and are not modelled. */
    method Init(w: int, h: int)
      requires 0 <= w && 0 <= h
      modifies this
      ensures Valid()
      ensures width == w && height == h
      ensures pixelCnt == w * h && byteCnt == 4 * pixelCnt
      ensures clearClr == White
      ensures fresh(ptrToPbo) && Filled(ptrToPbo[..], White)
      ensures |Bytes(ptrToPbo[..])| == byteCnt
    {
      width := w;
      height := h;
      pixelCnt := width * height;
      byteCnt := pixelCnt * 4;
      SetClearColorRgba(255, 255, 255);
      ptrToPbo := new Color[pixelCnt];
      ClearColorBuffer();
    }
  }
}
