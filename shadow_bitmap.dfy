/** The simulated android.graphics.Bitmap: its size, configuration, flags,
    description, provenance and an optional flat pixel buffer indexed
    y * width + x. A Bitmap and its shadow are one object here, since every
    Bitmap has exactly one shadow. */
module Bitmaps {
  import opened Wrappers
  import opened JavaLang

  /** android.graphics.Bitmap.Config; the platform release simulated here
      has exactly these four constants. */
  datatype Config = ALPHA_8 | RGB_565 | ARGB_4444 | ARGB_8888

  /** android.graphics.Matrix as the shadow sees it: the text its toString
      yields and the answer of isIdentity(), both computed outside this model. */
  datatype Matrix = Matrix(text: string, isIdentity: bool)

  /** The exceptions the shadow throws. */
  datatype Error =
    | IllegalArgumentException(message: string)
    | IllegalStateException(message: string)
    | NullPointerException(message: string)
    | ArrayIndexOutOfBoundsException(index: int)

  // ----- Byte sizes -----

  /** Bits per channel of each configuration, as its name spells them out;
      the reference for BytesPerPixel. */
  function ChannelBits(config: Config): seq<nat>
  {
    match config
    case ALPHA_8 => [8]
    case RGB_565 => [5, 6, 5]
    case ARGB_4444 => [4, 4, 4, 4]
    case ARGB_8888 => [8, 8, 8, 8]
  }

  function Sum(s: seq<nat>): nat
  {
    if |s| == 0 then 0 else s[0] + Sum(s[1..])
  }

  /** getBytesPerPixel: a null configuration is a NullPointerException. */
  function BytesPerPixel(config: Option<Config>): (r: Result<int, Error>)
    ensures r.Err? <==> config.None?
    ensures r.Err? ==> r.error == NullPointerException("Bitmap config was null.")
    ensures r.Ok? ==> 1 <= r.value <= 4
  {
    match config
    case None => Err(NullPointerException("Bitmap config was null."))
    case Some(ARGB_8888) => Ok(4)
    case Some(RGB_565) => Ok(2)
    case Some(ARGB_4444) => Ok(2)
    case Some(ALPHA_8) => Ok(1)
  }

  /** Every configuration packs its channels into whole bytes, and the byte
      size of a pixel is its total channel width divided by eight. */
  lemma BytesPerPixelIsChannelBytes(config: Config)
    ensures Sum(ChannelBits(config)) % 8 == 0
    ensures BytesPerPixel(Some(config)) == Ok(Sum(ChannelBits(config)) / 8)
  {
    var bits := ChannelBits(config);
    match config
    case ALPHA_8 =>
      assert bits[1..] == [];
    case RGB_565 =>
      assert bits[1..][1..] == [5] && bits[1..] == [6, 5];
      assert Sum([5]) == 5;
      assert Sum([6, 5]) == 11;
    case ARGB_4444 =>
      assert bits[1..][1..][1..] == [4] && bits[1..][1..] == [4, 4] && bits[1..] == [4, 4, 4];
      assert Sum([4]) == 4;
      assert Sum([4, 4]) == 8;
      assert Sum([4, 4, 4]) == 12;
    case ARGB_8888 =>
      assert bits[1..][1..][1..] == [8] && bits[1..][1..] == [8, 8] && bits[1..] == [8, 8, 8];
      assert Sum([8]) == 8;
      assert Sum([8, 8]) == 16;
      assert Sum([8, 8, 8]) == 24;
  }

  // ----- Pixel addressing -----

  lemma MulMonotone(a: int, b: int, c: nat)
    requires 0 <= a <= b
    ensures a * c <= b * c
  {
  }

  /** A row that starts further down starts at least a whole row later. */
  lemma RowStartsApart(a: int, b: int, c: nat)
    requires 0 <= a < b
    ensures a * c + c <= b * c
  {
    MulMonotone(a + 1, b, c);
  }

  /** The offset y * width + x of an in-range pixel lies inside a
      width * height buffer. */
  lemma PixelIndexInRange(width: int, height: int, x: int, y: int)
    requires 0 <= x < width && 0 <= y < height
    ensures 0 <= y * width + x < width * height
  {
    RowStartsApart(y, height, width);
  }

  /** Distinct in-range pixels have distinct buffer offsets. */
  lemma PixelIndexInjective(width: int, x: int, y: int, x': int, y': int)
    requires 0 <= x < width && 0 <= x' < width && 0 <= y && 0 <= y'
    requires y * width + x == y' * width + x'
    ensures x == x' && y == y'
  {
    if y < y' {
      RowStartsApart(y, y', width);
      assert false;
    } else if y' < y {
      RowStartsApart(y', y, width);
      assert false;
    }
  }

  /** internalCheckPixelAccess for a bitmap of the given size: the exception
      for an out-of-range pixel, checking x >= 0, y >= 0, x < width and
      y < height in that order. */
  function PixelAccessError(width: int, height: int, x: int, y: int): (r: Option<Error>)
    ensures r.None? <==> 0 <= x < width && 0 <= y < height
    ensures r.Some? ==> r.value.IllegalArgumentException?
  {
    if x < 0 then Some(IllegalArgumentException("x must be >= 0"))
    else if y < 0 then Some(IllegalArgumentException("y must be >= 0"))
    else if x >= width then Some(IllegalArgumentException("x must be < bitmap.width()"))
    else if y >= height then Some(IllegalArgumentException("y must be < bitmap.height()"))
    else None
  }

  /** getPixel on a bitmap of the given size whose buffer is `buffer` (None
      while no buffer is allocated): the stored colour, 0 without a buffer. A
      buffer shorter than the offset, which setWidth/setHeight can leave
      behind, makes the read an ArrayIndexOutOfBoundsException, as in Java. */
  function PixelAt(buffer: Option<seq<int>>, width: int, height: int, x: int, y: int): (r: Result<int, Error>)
    ensures !(0 <= x < width && 0 <= y < height) ==> r == Err(PixelAccessError(width, height, x, y).value)
    ensures 0 <= x < width && 0 <= y < height && buffer.None? ==> r == Ok(0)
    ensures r.Ok? && buffer.Some? ==>
              0 <= y * width + x < |buffer.value| && r.value == buffer.value[y * width + x]
  {
    match PixelAccessError(width, height, x, y)
    case Some(e) => Err(e)
    case None =>
      if buffer.None? then Ok(0)
      else if y * width + x < |buffer.value| then Ok(buffer.value[y * width + x])
      else Err(ArrayIndexOutOfBoundsException(y * width + x))
  }

  /** The zeroed buffer the first setPixel allocates. */
  function Zeros(n: nat): (s: seq<int>)
    ensures |s| == n && forall i :: 0 <= i < n ==> s[i] == 0
  {
    seq(n, _ => 0)
  }

  /** A buffer that holds width * height pixels serves every in-range read. */
  lemma PixelReadable(buffer: Option<seq<int>>, width: int, height: int, x: int, y: int)
    requires buffer.Some? ==> |buffer.value| == width * height
    requires 0 <= x < width && 0 <= y < height
    ensures PixelAt(buffer, width, height, x, y).Ok?
  {
    PixelIndexInRange(width, height, x, y);
  }

  /** A freshly zeroed buffer reads exactly like no buffer at all. */
  lemma ZeroBufferReadsLikeNone(width: int, height: int, x: int, y: int)
    requires width >= 0 && height >= 0
    ensures PixelAt(Some(Zeros(width * height)), width, height, x, y) == PixelAt(None, width, height, x, y)
  {
    if 0 <= x < width && 0 <= y < height {
      PixelIndexInRange(width, height, x, y);
    }
  }

  /** Writing colour c at the offset of (x, y) makes (x, y) read c. */
  lemma ReadAfterWrite(buffer: seq<int>, width: int, height: int, x: int, y: int, c: int)
    requires 0 <= x < width && 0 <= y < height && y * width + x < |buffer|
    ensures PixelAt(Some(buffer[y * width + x := c]), width, height, x, y) == Ok(c)
  {
    MulMonotone(0, y, width);
  }

  /** Writing at the offset of (x, y) leaves every other pixel as it was. */
  lemma WriteLeavesOtherPixels(buffer: seq<int>, width: int, height: int, x: int, y: int, c: int,
                               x': int, y': int)
    requires 0 <= x < width && 0 <= y < height && y * width + x < |buffer|
    requires x' != x || y' != y
    ensures PixelAt(Some(buffer[y * width + x := c]), width, height, x', y')
            == PixelAt(Some(buffer), width, height, x', y')
  {
    MulMonotone(0, y, width);
    if 0 <= x' < width && 0 <= y' < height && y' * width + x' == y * width + x {
      PixelIndexInjective(width, x, y, x', y');
    }
  }

  /** The buffer setPixel leaves behind for an in-range pixel of a bitmap
      that is neither recycled nor immutable: the first write allocates a
      zeroed width * height buffer; a buffer too short for the offset makes
      the write an ArrayIndexOutOfBoundsException. */
  function WritePixel(buffer: Option<seq<int>>, width: int, height: int, x: int, y: int, c: int)
    : (r: Result<seq<int>, Error>)
    ensures PixelAccessError(width, height, x, y).Some? ==> r == Err(PixelAccessError(width, height, x, y).value)
    ensures r.Ok? ==> 0 <= y * width + x < |r.value|
    ensures r.Ok? && buffer.Some? ==> |r.value| == |buffer.value|
    ensures r.Ok? && buffer.None? ==> |r.value| == width * height
  {
    match PixelAccessError(width, height, x, y)
    case Some(e) => Err(e)
    case None =>
      PixelIndexInRange(width, height, x, y);
      var b := if buffer.None? then Zeros(width * height) else buffer.value;
      if y * width + x < |b| then Ok(b[y * width + x := c])
      else Err(ArrayIndexOutOfBoundsException(y * width + x))
  }

  /** An in-range write succeeds unless an existing buffer is too short. */
  lemma WritePixelSucceeds(buffer: Option<seq<int>>, width: int, height: int, x: int, y: int, c: int)
    requires 0 <= x < width && 0 <= y < height
    ensures WritePixel(buffer, width, height, x, y, c).Ok?
            <==> buffer.None? || y * width + x < |buffer.value|
  {
    PixelIndexInRange(width, height, x, y);
  }

  /** After a write, the written pixel reads back the colour. */
  lemma WritePixelReadsBack(buffer: Option<seq<int>>, width: int, height: int, x: int, y: int, c: int)
    requires WritePixel(buffer, width, height, x, y, c).Ok?
    ensures PixelAt(Some(WritePixel(buffer, width, height, x, y, c).value), width, height, x, y) == Ok(c)
  {
    PixelIndexInRange(width, height, x, y);
    var b := if buffer.None? then Zeros(width * height) else buffer.value;
    ReadAfterWrite(b, width, height, x, y, c);
  }

  /** After a write, every other pixel reads as it did before it. */
  lemma WritePixelLeavesOthers(buffer: Option<seq<int>>, width: int, height: int, x: int, y: int, c: int,
                               x': int, y': int)
    requires WritePixel(buffer, width, height, x, y, c).Ok?
    requires x' != x || y' != y
    ensures PixelAt(Some(WritePixel(buffer, width, height, x, y, c).value), width, height, x', y')
            == PixelAt(buffer, width, height, x', y')
  {
    PixelIndexInRange(width, height, x, y);
    if buffer.None? {
      WriteLeavesOtherPixels(Zeros(width * height), width, height, x, y, c, x', y');
      ZeroBufferReadsLikeNone(width, height, x', y');
    } else {
      WriteLeavesOtherPixels(buffer.value, width, height, x, y, c, x', y');
    }
  }

  // ----- The bitmap object -----

  /** Where a bitmap came from: the createdFrom* fields. A bitmap made from
      scratch has resId, x, y, width and height -1, no source bitmap, colour
      array or matrix, and no filter. */
  datatype Origin = Origin(
    resId: int,
    bitmap: ShadowBitmap?,
    x: int,
    y: int,
    width: int,
    height: int,
    colors: array?<int>,
    matrix: Option<Matrix>,
    filter: bool)

  const NoOrigin: Origin := Origin(-1, null, -1, -1, -1, -1, null, None, false)

  /** Everything about a bitmap except its pixel buffer. */
  datatype Attributes = Attributes(
    width: int,
    height: int,
    config: Option<Config>,
    mutable: bool,
    description: string,
    recycled: bool,
    origin: Origin)

  /** The attributes of a bitmap straight out of Robolectric.newInstanceOf. */
  const Blank: Attributes := Attributes(0, 0, None, false, "", false, NoOrigin)

  class ShadowBitmap {
    var createdFromResId: int
    var createdFromBitmap: ShadowBitmap?
    var createdFromX: int
    var createdFromY: int
    var createdFromWidth: int
    var createdFromHeight: int
    var createdFromColors: array?<int>
    var createdFromMatrix: Option<Matrix>
    var createdFromFilter: bool

    var width: int
    var height: int
    /** The pixel buffer; null until the first setPixel or a colour array. */
    var colors: array?<int>
    var config: Option<Config>
    var mutable: bool
    var description: string
    var recycled: bool

    ghost function CreatedFrom(): Origin
      reads this
    {
      Origin(createdFromResId, createdFromBitmap, createdFromX, createdFromY,
             createdFromWidth, createdFromHeight, createdFromColors, createdFromMatrix,
             createdFromFilter)
    }

    ghost function State(): Attributes
      reads this
    {
      Attributes(width, height, config, mutable, description, recycled, CreatedFrom())
    }

    /** A new Bitmap from Robolectric.newInstanceOf(Bitmap.class), as the
        field initialisers leave it. */
    constructor ()
      ensures State() == Blank && colors == null
    {
      width, height, config, mutable, description, recycled := 0, 0, None, false, "", false;
      createdFromResId, createdFromBitmap, createdFromX, createdFromY := -1, null, -1, -1;
      createdFromWidth, createdFromHeight, createdFromColors := -1, -1, null;
      createdFromMatrix, createdFromFilter := None, false;
      colors := null;
    }

    /** A new Bitmap from Robolectric.newInstanceOf(Bitmap.class) with the
        fields a factory then assigns already in place; a factory leaves
        every other field as in `Blank`. */
    constructor Derived(a: Attributes, colors: array?<int>)
      ensures State() == a && this.colors == colors
    {
      width, height, config := a.width, a.height, a.config;
      mutable, description, recycled := a.mutable, a.description, a.recycled;
      createdFromResId, createdFromBitmap := a.origin.resId, a.origin.bitmap;
      createdFromX, createdFromY := a.origin.x, a.origin.y;
      createdFromWidth, createdFromHeight := a.origin.width, a.origin.height;
      createdFromColors, createdFromMatrix, createdFromFilter := a.origin.colors, a.origin.matrix, a.origin.filter;
      this.colors := colors;
    }

    predicate InBounds(x: int, y: int)
      reads this
    {
      0 <= x < width && 0 <= y < height
    }

    /** The pixel buffer as a value. */
    function Buffer(): (b: Option<seq<int>>)
      reads this, colors
      ensures b.None? <==> colors == null
    {
      if colors == null then None else Some(colors[..])
    }

    /** The buffer, when there is one, holds exactly width * height pixels.
        Every factory and setPixel keep this; setWidth and setHeight can
        break it. */
    predicate BufferMatchesSize()
      reads this, colors
    {
      colors == null || colors.Length == width * height
    }

    /** internalCheckPixelAccess. */
    function CheckPixelAccess(x: int, y: int): (r: Option<Error>)
      reads this
      ensures r.None? <==> InBounds(x, y)
    {
      PixelAccessError(width, height, x, y)
    }

    /** getPixel. */
    function GetPixel(x: int, y: int): (r: Result<int, Error>)
      reads this, colors
      ensures !InBounds(x, y) ==> r == Err(CheckPixelAccess(x, y).value)
      ensures InBounds(x, y) && colors == null ==> r == Ok(0)
    {
      PixelAt(Buffer(), width, height, x, y)
    }

    /** getRowBytes. */
    function RowBytes(): Result<int, Error>
      reads this
    {
      match BytesPerPixel(config)
      case Err(e) => Err(e)
      case Ok(bpp) => Ok(bpp * width)
    }

    /** getByteCount. */
    function ByteCount(): Result<int, Error>
      reads this
    {
      match RowBytes()
      case Err(e) => Err(e)
      case Ok(rowBytes) => Ok(rowBytes * height)
    }

    /** setPixel: refuses a recycled bitmap first, then an immutable one;
        the rest is WritePixel on the buffer. Only the buffer changes. */
    method SetPixel(x: int, y: int, color: int) returns (r: Result<(), Error>)
      modifies this, colors
      ensures State() == old(State())
      ensures old(recycled) ==> r == Err(IllegalStateException("Can't call setPixel() on a recycled bitmap"))
      ensures !old(recycled) && !old(mutable) ==> r == Err(IllegalStateException("Bitmap is immutable"))
      ensures !old(recycled) && old(mutable) ==>
                var w := WritePixel(old(Buffer()), width, height, x, y, color);
                (w.Err? ==> r == Err(w.error)) && (w.Ok? ==> r == Ok(()) && Buffer() == Some(w.value))
      ensures r.Err? ==> colors == old(colors) && Buffer() == old(Buffer())
      ensures old(colors) != null ==> colors == old(colors)
      ensures old(colors) == null && colors != null ==> fresh(colors)
    {
      if recycled {
        return Err(IllegalStateException("Can't call setPixel() on a recycled bitmap"));
      } else if !mutable {
        return Err(IllegalStateException("Bitmap is immutable"));
      }
      var check := CheckPixelAccess(x, y);
      if check.Some? {
        return Err(check.value);
      }
      PixelIndexInRange(width, height, x, y);
      var i := y * width + x;
      if colors == null {
        var buffer := new int[width * height](_ => 0);
        assert buffer[..] == Zeros(width * height);
        buffer[i] := color;
        colors := buffer;
        return Ok(());
      }
      if i >= colors.Length {
        return Err(ArrayIndexOutOfBoundsException(i));
      }
      colors[i] := color;
      r := Ok(());
    }

    /** recycle: marks the bitmap recycled and changes nothing else, so a
        second call leaves the state as the first left it. */
    method Recycle()
      modifies this
      ensures recycled
      ensures State() == old(State()).(recycled := true) && colors == old(colors)
    {
      recycled := true;
    }

    method SetConfig(config: Option<Config>)
      modifies this
      ensures State() == old(State()).(config := config) && colors == old(colors)
    {
      this.config := config;
    }

    method SetMutable(mutable: bool)
      modifies this
      ensures State() == old(State()).(mutable := mutable) && colors == old(colors)
    {
      this.mutable := mutable;
    }

    method AppendDescription(s: string)
      modifies this
      ensures State() == old(State()).(description := old(description) + s) && colors == old(colors)
    {
      description := description + s;
    }

    method SetDescription(s: string)
      modifies this
      ensures State() == old(State()).(description := s) && colors == old(colors)
    {
      description := s;
    }

    /** setWidth: the buffer is kept as it is, even when its size no longer
        matches. */
    method SetWidth(width: int)
      modifies this
      ensures State() == old(State()).(width := width) && colors == old(colors)
    {
      this.width := width;
    }

    method SetHeight(height: int)
      modifies this
      ensures State() == old(State()).(height := height) && colors == old(colors)
    {
      this.height := height;
    }

    /** setCreatedFromResId: records the resource and names it in the
        description. */
    method SetCreatedFromResId(resId: int, resName: string)
      modifies this
      ensures State() == old(State()).(origin := old(CreatedFrom()).(resId := resId),
                                       description := old(description) + " for resource:" + resName)
      ensures colors == old(colors)
    {
      createdFromResId := resId;
      description := description + " for resource:" + resName;
    }

    /** copy(config, isMutable): a new bitmap that remembers this one as its
        source and carries only the given configuration and mutability; size,
        description and pixels are not copied. */
    method Copy(config: Option<Config>, isMutable: bool) returns (r: ShadowBitmap)
      ensures fresh(r) && r.colors == null
      ensures r.State() == Attributes(0, 0, config, isMutable, "", false,
                                      Origin(-1, this, -1, -1, -1, -1, null, None, false))
    {
      r := new ShadowBitmap.Derived(
        Attributes(0, 0, config, isMutable, "", false,
                   Origin(-1, this, -1, -1, -1, -1, null, None, false)),
        null);
    }

    /** equals: the same object, or another bitmap with the same height,
        width and description. A null stands for an argument that is null or
        not a Bitmap. */
    predicate Equals(o: ShadowBitmap?)
      reads this, o
    {
      this == o
      || (o != null && height == o.height && width == o.width && description == o.description)
    }

    /** hashCode, in Java's 32-bit arithmetic. */
    function HashCode(): (h: int)
      reads this
      ensures -0x8000_0000 <= h < 0x8000_0000
    {
      var result := WrapInt(width);
      var result' := WrapInt(31 * result + height);
      WrapInt(31 * result' + StringHashCode(description))
    }
  }

  // ----- Properties of a bitmap's state -----

  /** A bitmap whose buffer matches its size can read every in-range pixel;
      with no buffer every in-range pixel reads 0. */
  lemma BitmapPixelReadable(b: ShadowBitmap, x: int, y: int)
    requires b.BufferMatchesSize() && b.InBounds(x, y)
    ensures b.GetPixel(x, y).Ok?
  {
    PixelReadable(b.Buffer(), b.width, b.height, x, y);
  }

  /** getRowBytes is bytes-per-pixel times width and getByteCount is
      getRowBytes times height, so a full pixel buffer of a configured bitmap
      takes getByteCount bytes. */
  lemma ByteCountIsBufferBytes(b: ShadowBitmap)
    requires b.config.Some?
    ensures b.RowBytes() == Ok(BytesPerPixel(b.config).value * b.width)
    ensures b.ByteCount() == Ok(BytesPerPixel(b.config).value * (b.width * b.height))
    ensures b.BufferMatchesSize() && b.colors != null ==>
              b.ByteCount() == Ok(BytesPerPixel(b.config).value * |b.Buffer().value|)
  {
    var bpp := BytesPerPixel(b.config).value;
    assert bpp * b.width * b.height == bpp * (b.width * b.height);
  }

  /** Without a configuration neither byte size can be computed. */
  lemma ByteSizesNeedConfig(b: ShadowBitmap)
    requires b.config.None?
    ensures b.RowBytes() == Err(NullPointerException("Bitmap config was null."))
    ensures b.ByteCount() == Err(NullPointerException("Bitmap config was null."))
  {
  }

  /** equals is an equivalence relation on bitmaps. */
  lemma EqualsIsEquivalence(a: ShadowBitmap, b: ShadowBitmap, c: ShadowBitmap)
    ensures a.Equals(a)
    ensures a.Equals(b) ==> b.Equals(a)
    ensures a.Equals(b) && b.Equals(c) ==> a.Equals(c)
  {
  }

  /** equals holds exactly when width, height and description agree. */
  lemma EqualsIffSameAttributes(a: ShadowBitmap, b: ShadowBitmap)
    ensures a.Equals(b) <==> a.width == b.width && a.height == b.height && a.description == b.description
  {
  }

  /** Equal bitmaps have equal hash codes. */
  lemma EqualBitmapsHashEqually(a: ShadowBitmap, b: ShadowBitmap)
    requires a.Equals(b)
    ensures a.HashCode() == b.HashCode()
  {
  }

  // ----- Factories -----

  /** The description createBitmap(width, height, config) gives. */
  function SizeDescription(width: int, height: int): string
  {
    "Bitmap (" + IntToString(width) + " x " + IntToString(height) + ")"
  }

  /** createBitmap(width, height, config): both sides must be positive. The
      new bitmap is not mutable and has no pixel buffer. */
  method CreateBitmap(width: int, height: int, config: Option<Config>) returns (r: Result<ShadowBitmap, Error>)
    ensures r.Err? <==> width <= 0 || height <= 0
    ensures r.Err? ==> r.error == IllegalArgumentException("width and height must be > 0")
    ensures r.Ok? ==> fresh(r.value) && r.value.colors == null
    ensures r.Ok? ==> r.value.State() == Attributes(width, height, config, false,
                                                    SizeDescription(width, height), false, NoOrigin)
  {
    if width <= 0 || height <= 0 {
      return Err(IllegalArgumentException("width and height must be > 0"));
    }
    var b := new ShadowBitmap.Derived(
      Attributes(width, height, config, false, SizeDescription(width, height), false, NoOrigin), null);
    r := Ok(b);
  }

  /** createBitmap(src): notes the call in src's description and returns
      src itself. */
  method CreateBitmapFromBitmap(src: ShadowBitmap) returns (r: ShadowBitmap)
    modifies src
    ensures r == src
    ensures src.State() == old(src.State()).(description := old(src.description) + " created from Bitmap object")
    ensures src.colors == old(src.colors)
  {
    src.description := src.description + " created from Bitmap object";
    r := src;
  }

  /** The description createScaledBitmap gives. */
  function ScaledDescription(src: string, dstWidth: int, dstHeight: int, filter: bool): string
  {
    src + " scaled to " + IntToString(dstWidth) + " x " + IntToString(dstHeight)
    + (if filter then " with filter " + BoolToString(filter) else "")
  }

  /** createScaledBitmap: src itself when neither the size nor the filter
      changes anything; otherwise a new bitmap of the requested size that
      records src and the filter. The size is not checked. */
  method CreateScaledBitmap(src: ShadowBitmap, dstWidth: int, dstHeight: int, filter: bool)
    returns (r: ShadowBitmap)
    ensures dstWidth == src.width && dstHeight == src.height && !filter ==> r == src
    ensures !(dstWidth == src.width && dstHeight == src.height && !filter) ==>
              fresh(r) && r.colors == null
              && r.State() == Attributes(
                   dstWidth, dstHeight, None, false,
                   ScaledDescription(src.description, dstWidth, dstHeight, filter),
                   false, Origin(-1, src, -1, -1, -1, -1, null, None, filter))
  {
    if dstWidth == src.width && dstHeight == src.height && !filter {
      return src;
    }
    r := new ShadowBitmap.Derived(
      Attributes(dstWidth, dstHeight, None, false,
                 ScaledDescription(src.description, dstWidth, dstHeight, filter),
                 false, Origin(-1, src, -1, -1, -1, -1, null, None, filter)),
      null);
  }

  /** The description a sub-rectangle of src gets. */
  function RegionDescription(src: string, x: int, y: int, width: int, height: int): string
  {
    src + " at (" + IntToString(x) + "," + IntToString(y)
    + " with width " + IntToString(width) + " and height " + IntToString(height)
  }

  /** createBitmap(src, x, y, width, height): src itself for the whole of
      src; otherwise a new bitmap of the requested size that records where it
      came from. The rectangle is not checked against src. */
  method CreateSubBitmap(src: ShadowBitmap, x: int, y: int, width: int, height: int)
    returns (r: ShadowBitmap)
    ensures x == 0 && y == 0 && width == src.width && height == src.height ==> r == src
    ensures !(x == 0 && y == 0 && width == src.width && height == src.height) ==>
              fresh(r) && r.colors == null
              && r.State() == Attributes(
                   width, height, None, false, RegionDescription(src.description, x, y, width, height),
                   false, Origin(-1, src, x, y, width, height, null, None, false))
  {
    if x == 0 && y == 0 && width == src.width && height == src.height {
      return src;
    }
    r := new ShadowBitmap.Derived(
      Attributes(width, height, None, false, RegionDescription(src.description, x, y, width, height),
                 false, Origin(-1, src, x, y, width, height, null, None, false)),
      null);
  }

  /** The description createBitmap(src, x, y, width, height, matrix, filter)
      gives. */
  function TransformedDescription(src: string, x: int, y: int, width: int, height: int,
                                  matrix: Option<Matrix>, filter: bool): string
  {
    RegionDescription(src, x, y, width, height)
    + (if matrix.Some? then " using matrix " + matrix.value.text else "")
    + (if filter then " with filter" else "")
  }

  /** createBitmap(src, x, y, width, height, matrix, filter): src itself for
      the whole of src under no or an identity matrix; otherwise the rectangle
      must end inside src, and the new bitmap also records matrix and filter. */
  method CreateTransformedBitmap(src: ShadowBitmap, x: int, y: int, width: int, height: int,
                                 matrix: Option<Matrix>, filter: bool)
    returns (r: Result<ShadowBitmap, Error>)
    ensures (x == 0 && y == 0 && width == src.width && height == src.height
             && (matrix.None? || matrix.value.isIdentity)) ==> r == Ok(src)
    ensures !(x == 0 && y == 0 && width == src.width && height == src.height
              && (matrix.None? || matrix.value.isIdentity)) ==>
              && (x + width > src.width ==> r == Err(IllegalArgumentException("x + width must be <= bitmap.width()")))
              && (x + width <= src.width && y + height > src.height ==>
                    r == Err(IllegalArgumentException("y + height must be <= bitmap.height()")))
              && (x + width <= src.width && y + height <= src.height ==>
                    r.Ok? && fresh(r.value) && r.value.colors == null
                    && r.value.State() == Attributes(
                         width, height, None, false,
                         TransformedDescription(src.description, x, y, width, height, matrix, filter),
                         false, Origin(-1, src, x, y, width, height, null, matrix, filter)))
  {
    if x == 0 && y == 0 && width == src.width && height == src.height
       && (matrix.None? || matrix.value.isIdentity) {
      return Ok(src);
    }
    if x + width > src.width {
      return Err(IllegalArgumentException("x + width must be <= bitmap.width()"));
    }
    if y + height > src.height {
      return Err(IllegalArgumentException("y + height must be <= bitmap.height()"));
    }
    var b := new ShadowBitmap.Derived(
      Attributes(width, height, None, false,
                 TransformedDescription(src.description, x, y, width, height, matrix, filter),
                 false, Origin(-1, src, x, y, width, height, null, matrix, filter)),
      null);
    r := Ok(b);
  }

  /** createBitmap(colors, width, height, config): the array must hold
      width * height colours and both sides must be positive; the new bitmap
      gets its own copy of the colours and remembers the original array. */
  method CreateBitmapFromColors(colors: array<int>, width: int, height: int, config: Option<Config>)
    returns (r: Result<ShadowBitmap, Error>)
    ensures colors.Length != width * height ==>
              r == Err(IllegalArgumentException("array length (" + IntToString(colors.Length)
                         + ") did not match width * height (" + IntToString(width * height) + ")"))
    ensures colors.Length == width * height && (width <= 0 || height <= 0) ==>
              r == Err(IllegalArgumentException("width and height must be > 0"))
    ensures r.Ok? <==> colors.Length == width * height && width > 0 && height > 0
    ensures r.Ok? ==> fresh(r.value) && fresh(r.value.colors)
    ensures r.Ok? ==> r.value.Buffer() == Some(colors[..])
    ensures r.Ok? ==> r.value.BufferMatchesSize()
    ensures r.Ok? ==> r.value.State() == Attributes(width, height, config, false,
                                                    SizeDescription(width, height), false,
                                                    Origin(-1, null, -1, -1, -1, -1, colors, None, false))
  {
    if colors.Length != width * height {
      return Err(IllegalArgumentException("array length (" + IntToString(colors.Length)
                   + ") did not match width * height (" + IntToString(width * height) + ")"));
    }
    var created := CreateBitmap(width, height, config);
    if created.Err? {
      return Err(created.error);
    }
    var b := created.value;
    b.createdFromColors := colors;
    var copy := new int[colors.Length];
    forall i | 0 <= i < colors.Length {
      copy[i] := colors[i];
    }
    assert copy[..] == colors[..];
    b.colors := copy;
    r := Ok(b);
  }
}
