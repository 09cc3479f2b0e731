/**
  Texture: a GL 2D texture decoded from an image file at construction.
  Decoding is an oracle: the constructor is handed what stb_image returned.
 */
module Textures {
  import opened Device

  /** What the decoder reports for an image it could read. */
  datatype Image = Image(width: int, height: int, channels: int)

  /** A Texture: its GL name and the decoded image (None when decoding failed). */
  datatype Texture = Texture(id: Name, image: Option<Image>)

  /** The channel counts the constructor knows a pixel format for. */
  predicate Supported(channels: int) {
    channels == 1 || channels == 3 || channels == 4
  }

  /** The format chosen as written: the if-chain has no final else, so other counts leave the variable unassigned. */
  function FormatAsWritten(channels: int): (f: Format)
    ensures f == Indeterminate <==> !Supported(channels)
  {
    if channels == 1 then Red
    else if channels == 3 then Rgb
    else if channels == 4 then Rgba
    else Indeterminate
  }

  /** The format selection with an explicit refusal for unsupported channel counts. */
  function FormatFor(channels: int): (f: Option<Format>)
    ensures f.Some? <==> Supported(channels)
    ensures channels == 1 ==> f == Some(Red)
    ensures channels == 3 ==> f == Some(Rgb)
    ensures channels == 4 ==> f == Some(Rgba)
    ensures f.Some? ==> f.value != Indeterminate
  {
    if Supported(channels) then Some(FormatAsWritten(channels)) else None
  }

  /** The parameters every texture gets, before decoding is even attempted. */
  function Parameters(id: Name): seq<Event> {
    [TexParameter(id, WrapSRepeat), TexParameter(id, WrapTRepeat),
     TexParameter(id, MinFilterLinear), TexParameter(id, MagFilterLinear)]
  }

  /** The constructor up to the decode: a fresh name, bound on the active unit, with repeat wrapping and linear filtering. */
  function Prepare(s: Device): (r: Step<Name>)
    ensures r.obj != 0 && Fresh(s, r.obj)
    ensures r.state.bind == s.bind.(units := s.bind.units[s.bind.activeUnit := r.obj])
    ensures r.state.storage == s.storage
    ensures r.state.log == s.log + [Created(TextureObject, r.obj)] + Parameters(r.obj)
  {
    var g := Gen(s, TextureObject);
    var s1 := BindTexture(g.state, g.obj);
    var s2 := TexParameteri(s1, WrapSRepeat);
    var s3 := TexParameteri(s2, WrapTRepeat);
    var s4 := TexParameteri(s3, MinFilterLinear);
    Step(g.obj, TexParameteri(s4, MagFilterLinear))
  }

  /** Upload with a chosen format, then build the mipmap chain. */
  function Upload(s: Device, format: Format, img: Image): (r: Device)
    ensures r.bind == s.bind && r.storage == s.storage
    ensures r.log == s.log + [TexImage(ActiveTextureName(s.bind), format, img.width, img.height), Mipmap(ActiveTextureName(s.bind))]
  {
    GenerateMipmap(TexImage2D(s, format, img.width, img.height))
  }

  /** What the decode branch appends, as written. */
  function DecodeEventsAsWritten(id: Name, decoded: Option<Image>): seq<Event> {
    match decoded
    case None => [Diagnostic(TextureLoadFailed)]
    case Some(img) => [TexImage(id, FormatAsWritten(img.channels), img.width, img.height), Mipmap(id)]
  }

  /** What the decode branch appends once unsupported channel counts are refused. */
  function DecodeEvents(id: Name, decoded: Option<Image>): seq<Event> {
    match decoded
    case None => [Diagnostic(TextureLoadFailed)]
    case Some(img) =>
      match FormatFor(img.channels)
      case None => [Diagnostic(UnsupportedChannels(img.channels))]
      case Some(f) => [TexImage(id, f, img.width, img.height), Mipmap(id)]
  }

  /** The constructor as written. */
  function NewAsWritten(s: Device, decoded: Option<Image>): (r: Step<Texture>)
    ensures r.obj.id != 0 && Fresh(s, r.obj.id) && r.obj.image == decoded
    ensures r.state.bind == s.bind.(units := s.bind.units[s.bind.activeUnit := r.obj.id])
    ensures r.state.storage == s.storage
    ensures r.state.log == s.log + [Created(TextureObject, r.obj.id)] + Parameters(r.obj.id)
                           + DecodeEventsAsWritten(r.obj.id, decoded)
  {
    var p := Prepare(s);
    match decoded
    case None => Step(Texture(p.obj, decoded), Diagnose(p.state, TextureLoadFailed))
    case Some(img) => Step(Texture(p.obj, decoded), Upload(p.state, FormatAsWritten(img.channels), img))
  }

  /** The constructor with the channel check: an unsupported image is reported like a failed decode. */
  function New(s: Device, decoded: Option<Image>): (r: Step<Texture>)
    ensures r.obj.id != 0 && Fresh(s, r.obj.id) && r.obj.image == decoded
    ensures r.state.bind == s.bind.(units := s.bind.units[s.bind.activeUnit := r.obj.id])
    ensures r.state.storage == s.storage
    ensures r.state.log == s.log + [Created(TextureObject, r.obj.id)] + Parameters(r.obj.id)
                           + DecodeEvents(r.obj.id, decoded)
  {
    var p := Prepare(s);
    match decoded
    case None => Step(Texture(p.obj, decoded), Diagnose(p.state, TextureLoadFailed))
    case Some(img) =>
      match FormatFor(img.channels)
      case None => Step(Texture(p.obj, decoded), Diagnose(p.state, UnsupportedChannels(img.channels)))
      case Some(f) => Step(Texture(p.obj, decoded), Upload(p.state, f, img))
  }

  /** bind(n): make unit n active and bind this texture there. */
  function Bind(s: Device, t: Texture, unit: nat): (r: Device)
    ensures r.bind.activeUnit == unit && r.bind.OnUnit(unit) == t.id
    ensures forall u: nat | u != unit :: r.bind.OnUnit(u) == s.bind.OnUnit(u)
    ensures r.bind.(activeUnit := s.bind.activeUnit, units := s.bind.units) == s.bind
    ensures r.log == s.log && r.storage == s.storage && r.next == s.next
  {
    BindTexture(ActiveTexture(s, unit), t.id)
  }

  /** unbind(): clears whatever unit is active, not the unit this texture was bound to. */
  function Unbind(s: Device, t: Texture): (r: Device)
    ensures r.bind.OnUnit(s.bind.activeUnit) == 0
    ensures forall u: nat | u != s.bind.activeUnit :: r.bind.OnUnit(u) == s.bind.OnUnit(u)
    ensures r.bind.(units := s.bind.units) == s.bind
    ensures r.log == s.log && r.storage == s.storage && r.next == s.next
  {
    BindTexture(s, 0)
  }

  /** Clearing a given unit: make it active, then bind 0 there. */
  function UnbindFrom(s: Device, unit: nat): (r: Device)
    ensures r.bind.activeUnit == unit && r.bind.OnUnit(unit) == 0
    ensures forall u: nat | u != unit :: r.bind.OnUnit(u) == s.bind.OnUnit(u)
    ensures r.bind.(activeUnit := s.bind.activeUnit, units := s.bind.units) == s.bind
    ensures r.log == s.log && r.storage == s.storage && r.next == s.next
  {
    BindTexture(ActiveTexture(s, unit), 0)
  }

  /** The destructor. */
  function Destroy(s: Device, t: Texture): (r: Device)
    ensures r.bind == s.bind && r.storage == s.storage
    ensures r.log == s.log + [Deleted(TextureObject, t.id)]
  {
    Delete(s, TextureObject, t.id)
  }

  /**
    What the constructor appends after the four parameters: image data is
    uploaded, and mipmaps built, exactly when decoding succeeded with a
    supported channel count; a failed decode is reported, and so is an
    unsupported channel count.
   */
  lemma UploadIffDecoded(id: Name, decoded: Option<Image>)
    ensures (exists e | e in DecodeEvents(id, decoded) :: e.TexImage?) <==> decoded.Some? && Supported(decoded.value.channels)
    ensures (exists e | e in DecodeEvents(id, decoded) :: e.Mipmap?) <==> decoded.Some? && Supported(decoded.value.channels)
    ensures Diagnostic(TextureLoadFailed) in DecodeEvents(id, decoded) <==> decoded.None?
    ensures decoded.Some? && !Supported(decoded.value.channels)
            ==> DecodeEvents(id, decoded) == [Diagnostic(UnsupportedChannels(decoded.value.channels))]
    ensures forall e | e in DecodeEvents(id, decoded) && e.TexImage? :: e.texture == id && e.format != Indeterminate
  {
    if decoded.Some? && Supported(decoded.value.channels) {
      var es := DecodeEvents(id, decoded);
      assert es[0].TexImage? && es[1].Mipmap?;
    }
  }

  /** With the check in place, no upload ever uses an unassigned format. */
  lemma NeverIndeterminate(s: Device, decoded: Option<Image>)
    ensures var r := New(s, decoded);
            forall e | e in r.state.log[|s.log|..] && e.TexImage? :: e.format != Indeterminate
  {
    var r := New(s, decoded);
    assert r.state.log[|s.log|..] == [Created(TextureObject, r.obj.id)] + Parameters(r.obj.id) + DecodeEvents(r.obj.id, decoded);
  }

  /** As written, a decoded two-channel image (grey plus alpha) is uploaded with an unassigned format. */
  lemma AsWrittenIndeterminate(s: Device, width: int, height: int)
    ensures var r := NewAsWritten(s, Some(Image(width, height, 2)));
            TexImage(r.obj.id, Indeterminate, width, height) in r.state.log
  {
    var r := NewAsWritten(s, Some(Image(width, height, 2)));
    assert r.state.log[|r.state.log| - 2] == TexImage(r.obj.id, Indeterminate, width, height);
  }

  /** Both constructors agree on every supported or failed decode; they differ only where the format was unassigned. */
  lemma AgreeWhenSupported(s: Device, decoded: Option<Image>)
    ensures (decoded.None? || Supported(decoded.value.channels)) <==> New(s, decoded) == NewAsWritten(s, decoded)
  {
    if decoded.Some? && !Supported(decoded.value.channels) {
      var a := New(s, decoded).state.log;
      var b := NewAsWritten(s, decoded).state.log;
      assert a[|a| - 1] != b[|b| - 1];
    }
  }

  /**
    unbind() acts on the active unit: binding `t` on unit n, then another
    texture on a different unit m, then calling t's unbind leaves t on unit n.
   */
  lemma UnbindMissesEarlierUnit(s: Device, t: Texture, n: nat, other: Texture, m: nat)
    requires n != m
    ensures Unbind(Bind(Bind(s, t, n), other, m), t).bind.OnUnit(n) == t.id
    ensures Unbind(Bind(Bind(s, t, n), other, m), t).bind.OnUnit(m) == 0
  {
  }

  /** The decode events neither create nor delete anything. */
  lemma DecodeQuiet(id: Name, decoded: Option<Image>)
    ensures forall e | e in DecodeEvents(id, decoded) :: !e.Created? && !e.Deleted?
  {
  }

  /** The as-written decode events neither create nor delete anything either. */
  lemma DecodeQuietAsWritten(id: Name, decoded: Option<Image>)
    ensures forall e | e in DecodeEventsAsWritten(id, decoded) :: !e.Created? && !e.Deleted?
  {
  }

  /**
    With the constructor as written, too: a texture built and then destroyed
    was created exactly once and is deleted once more than before, whatever
    the decode reported, including an unsupported channel count.
   */
  lemma CreateDeletePairedAsWritten(s: Device, decoded: Option<Image>)
    ensures var c := NewAsWritten(s, decoded);
            var r := Destroy(c.state, c.obj);
            && Count(r.log, Created(TextureObject, c.obj.id)) == 1
            && Count(r.log, Deleted(TextureObject, c.obj.id)) == Count(s.log, Deleted(TextureObject, c.obj.id)) + 1
  {
    var c := NewAsWritten(s, decoded);
    var id := c.obj.id;
    assert Destroy(c.state, c.obj).log == s.log + [Created(TextureObject, id)] + Parameters(id) + DecodeEventsAsWritten(id, decoded)
                                          + [Deleted(TextureObject, id)];
    assert Created(TextureObject, id) !in s.log;
    DecodeQuietAsWritten(id, decoded);
    CreateThenDelete(s.log, TextureObject, id, Parameters(id), DecodeEventsAsWritten(id, decoded));
  }

  /** A texture built and then destroyed was created exactly once and is deleted once more than before. */
  lemma CreateDeletePaired(s: Device, decoded: Option<Image>)
    ensures var c := New(s, decoded);
            var r := Destroy(c.state, c.obj);
            && Count(r.log, Created(TextureObject, c.obj.id)) == 1
            && Count(r.log, Deleted(TextureObject, c.obj.id)) == Count(s.log, Deleted(TextureObject, c.obj.id)) + 1
  {
    var c := New(s, decoded);
    var id := c.obj.id;
    assert Destroy(c.state, c.obj).log == s.log + [Created(TextureObject, id)] + Parameters(id) + DecodeEvents(id, decoded)
                                          + [Deleted(TextureObject, id)];
    assert Created(TextureObject, id) !in s.log;
    DecodeQuiet(id, decoded);
    CreateThenDelete(s.log, TextureObject, id, Parameters(id), DecodeEvents(id, decoded));
  }
}
