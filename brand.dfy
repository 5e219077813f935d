/** The brand settings screen: the accent-colour validator, the load rule for saved
    settings, logo selection, the preview gradient and the save sequence that writes
    the style record, the logo and then the brand record. */
module Brand {
  import opened Js
  import opened ContentStore
  import opened IpfsStorageContext

  const BrandKey := "ORG_SETTINGS_BRAND"

  // ---- The colour validator ----

  predicate IsHexDigit(c: char) {
    '0' <= c <= '9' || 'a' <= c <= 'f' || 'A' <= c <= 'F'
  }

  /** `colorRX.test(s)`: a '#' followed by exactly 3 or 6 hex digits of either case. */
  predicate IsColor(s: string) {
    && (|s| == 4 || |s| == 7)
    && s[0] == '#'
    && forall i :: 1 <= i < |s| ==> IsHexDigit(s[i])
  }

  /** The regular expression `/^#(([a-f0-9]{3}){1,2})$/i` read as written: a '#', then
      one or two groups of three characters each matching `[a-f0-9]` ignoring case. */
  predicate RegexTriplet(t: string) {
    |t| == 3 && forall i :: 0 <= i < 3 ==> LowerChar(t[i]) in "0123456789abcdef"
  }

  predicate RegexGroups(t: string, reps: nat) {
    || RegexTriplet(t)
    || (reps > 1 && |t| > 3 && RegexTriplet(t[..3]) && RegexGroups(t[3..], reps - 1))
  }

  predicate RegexColor(s: string) {
    |s| >= 1 && s[0] == '#' && RegexGroups(s[1..], 2)
  }

  lemma HexDigitLower(c: char)
    ensures IsHexDigit(c) <==> LowerChar(c) in "0123456789abcdef"
  {
    var lower := "0123456789abcdef";
    if IsHexDigit(c) {
      var l := LowerChar(c);
      var i := if '0' <= l <= '9' then l as int - '0' as int else l as int - 'a' as int + 10;
      assert lower[i] == l;
    }
  }

  /** The validator agrees with its regular expression, character by character. */
  lemma ColorMatchesRegex(s: string)
    ensures IsColor(s) <==> RegexColor(s)
  {
    forall i | 0 <= i < |s| {
      HexDigitLower(s[i]);
    }
    if |s| >= 1 && s[0] == '#' {
      var t := s[1..];
      if |t| == 7 - 1 {
        assert t[..3][..] == s[1..4] && t[3..] == s[4..];
        assert forall i :: 0 <= i < 3 ==> t[..3][i] == s[1 + i] && t[3..][i] == s[4 + i];
        if IsColor(s) {
          assert RegexTriplet(t[..3]) && RegexTriplet(t[3..]);
          assert RegexGroups(t[3..], 1);
          assert RegexGroups(t, 2);
        }
        if RegexColor(s) {
          assert RegexTriplet(t[..3]) && RegexGroups(t[3..], 1);
          assert RegexTriplet(t[3..]);
          forall i | 1 <= i < |s|
            ensures IsHexDigit(s[i])
          {
            if i < 4 {
              assert s[i] == t[..3][i - 1];
              assert LowerChar(t[..3][i - 1]) in "0123456789abcdef";
            } else {
              assert s[i] == t[3..][i - 4];
              assert LowerChar(t[3..][i - 4]) in "0123456789abcdef";
            }
          }
        }
      } else if |t| == 3 {
        if IsColor(s) {
          forall i | 0 <= i < 3
            ensures LowerChar(t[i]) in "0123456789abcdef"
          {
            assert t[i] == s[i + 1];
          }
          assert RegexTriplet(t);
        }
        if RegexColor(s) {
          forall i | 1 <= i < |s|
            ensures IsHexDigit(s[i])
          {
            assert RegexTriplet(t);
            assert s[i] == t[i - 1];
            assert LowerChar(t[i - 1]) in "0123456789abcdef";
          }
        }
      } else {
        assert |t| <= 3 || !RegexGroups(t[3..], 1);
        assert !RegexGroups(t, 2);
      }
    }
  }

  /** The value of a hex digit. */
  function HexValue(c: char): (v: nat)
    requires IsHexDigit(c)
    ensures v < 16
  {
    if '0' <= c <= '9' then c as int - '0' as int
    else if 'a' <= c <= 'f' then c as int - 'a' as int + 10
    else c as int - 'A' as int + 10
  }

  function Channel(hi: char, lo: char): (v: nat)
    requires IsHexDigit(hi) && IsHexDigit(lo)
    ensures v < 256
  {
    HexValue(hi) * 16 + HexValue(lo)
  }

  /** The sRGB colour an accepted string denotes under the hex notation of section 5.2
      of CSS Color Module Level 4: six digits are three two-digit channels; three digits
      are the six-digit form with every digit written twice. */
  function CssRgb(s: string): (rgb: (nat, nat, nat))
    requires IsColor(s)
    ensures rgb.0 < 256 && rgb.1 < 256 && rgb.2 < 256
  {
    if |s| == 7 then (Channel(s[1], s[2]), Channel(s[3], s[4]), Channel(s[5], s[6]))
    else (Channel(s[1], s[1]), Channel(s[2], s[2]), Channel(s[3], s[3]))
  }

  /** A three-digit colour names the same sRGB colour as its doubled six-digit form,
      and the validator accepts both. */
  lemma ShortFormExpands(s: string)
    requires IsColor(s) && |s| == 4
    ensures var long := ['#', s[1], s[1], s[2], s[2], s[3], s[3]];
      IsColor(long) && CssRgb(long) == CssRgb(s)
  {
  }

  /** The alpha forms `#rgba` and `#rrggbbaa` that CSS Color 4 also allows are rejected,
      as is every string whose digits include a non-hex character. */
  lemma AlphaFormsRejected(s: string)
    ensures |s| == 5 || |s| == 9 ==> !IsColor(s)
    ensures (exists i :: 1 <= i < |s| && !IsHexDigit(s[i])) ==> !IsColor(s)
  {
  }

  /** `colorError`: set only for a truthy accent colour that fails the validator (a
      non-string value is tested as the string it converts to). */
  predicate ColorError(accentColor: Value) {
    Truthy(accentColor) && !IsColor(ToStr(accentColor))
  }

  /** The error is shown for a non-empty string exactly when the regular expression
      rejects it, and never for a falsy value. */
  lemma ColorErrorCases(v: Value)
    ensures !Truthy(v) ==> !ColorError(v)
    ensures v.Str? && v.s != "" ==> (ColorError(v) <==> !RegexColor(v.s))
  {
    if v.Str? {
      ColorMatchesRegex(v.s);
    }
  }

  // ---- Preview ----

  /** The two gradient stops of the preview button, or None when `accentColor` is falsy
      and the button keeps its default style. */
  function PreviewStops(accentColor: Value, accentColor2: Value): (stops: Option<(string, string)>)
    ensures stops.Some? <==> Truthy(accentColor)
    ensures stops.Some? ==> stops.value.0 == ToStr(accentColor)
    ensures stops.Some? && Truthy(accentColor2) ==> stops.value.1 == ToStr(accentColor2)
    ensures stops.Some? && !Truthy(accentColor2) ==> stops.value.1 == stops.value.0
  {
    if !Truthy(accentColor) then None
    else Some((ToStr(accentColor), ToStr(if Truthy(accentColor2) then accentColor2 else accentColor)))
  }

  // ---- Records written on save ----

  /** The style record: exactly `background`, `accentColor` and `accentColor2`. */
  function StyleRecord(background: Value, accentColor: Value, accentColor2: Value): (v: Value)
    ensures v.Obj? && v.props.Keys == {"background", "accentColor", "accentColor2"}
    ensures Get(v, "background") == background && Get(v, "accentColor") == accentColor
      && Get(v, "accentColor2") == accentColor2
  {
    Obj(map["background" := background, "accentColor" := accentColor, "accentColor2" := accentColor2])
  }

  /** The brand record: pointers to the style node and to the logo file. */
  function BrandRecord(styleCid: Value, logoCid: Value): (v: Value)
    ensures v.Obj? && v.props.Keys == {"style_cid", "logo_cid"}
    ensures Get(v, "style_cid") == styleCid && Get(v, "logo_cid") == logoCid
  {
    Obj(map["style_cid" := styleCid, "logo_cid" := logoCid])
  }

  /** The screen's state cells. `image` is the logo file, undefined (None) until one is
      dropped or loaded. */
  class BrandForm {
    var image: Option<Blob>
    var background: Value
    var previewOpen: bool
    var accentStyle: int
    var accentColor: Value
    var accentColor2: Value

    constructor ()
      ensures image.None? && background == Bool(true) && !previewOpen && accentStyle == 0
      ensures accentColor == Str("") && accentColor2 == Str("")
    {
      image := None;
      background := Bool(true);
      previewOpen := false;
      accentStyle := 0;
      accentColor := Str("");
      accentColor2 := Str("");
    }

    /** The `orgInfo` effect (`setBrand`), run only for a truthy `orgInfo`: copy the
        background and accent colour, switch to the gradient style and copy the second
        colour iff it is truthy, then take the fetched logo when the fetch succeeded. */
    method Load(orgInfo: Value, fetchedImage: Option<Blob>)
      modifies this
      ensures !Truthy(orgInfo) ==>
        && image == old(image) && background == old(background) && previewOpen == old(previewOpen)
        && accentStyle == old(accentStyle) && accentColor == old(accentColor)
        && accentColor2 == old(accentColor2)
      ensures Truthy(orgInfo) ==>
        && background == Get(orgInfo, "background")
        && accentColor == Get(orgInfo, "accentColor")
        && (Truthy(Get(orgInfo, "accentColor2")) ==>
              accentStyle == 1 && accentColor2 == Get(orgInfo, "accentColor2"))
        && (!Truthy(Get(orgInfo, "accentColor2")) ==>
              accentStyle == old(accentStyle) && accentColor2 == old(accentColor2))
        && image == (if fetchedImage.Some? then fetchedImage else old(image))
        && previewOpen == old(previewOpen)
    {
      if !Truthy(orgInfo) {
        return;
      }
      background := Get(orgInfo, "background");
      accentColor := Get(orgInfo, "accentColor");
      var second := Get(orgInfo, "accentColor2");
      if Truthy(second) {
        accentStyle := 1;
        accentColor2 := second;
      }
      if fetchedImage.Some? {
        image := fetchedImage;
      }
    }

    /** `onDrop`: the first accepted file becomes the logo (undefined if there is none). */
    method OnDrop(acceptedFiles: seq<Blob>)
      modifies this`image
      ensures image == if |acceptedFiles| > 0 then Some(acceptedFiles[0]) else None
    {
      image := if |acceptedFiles| > 0 then Some(acceptedFiles[0]) else None;
    }

    method ChangeAccentColor(value: string)
      modifies this`accentColor
      ensures accentColor == Str(value)
    {
      accentColor := Str(value);
    }

    method ChangeAccentColor2(value: string)
      modifies this`accentColor2
      ensures accentColor2 == Str(value)
    {
      accentColor2 := Str(value);
    }

    method OpenPreview()
      modifies this`previewOpen
      ensures previewOpen
    {
      previewOpen := true;
    }

    method ClosePreview()
      modifies this`previewOpen
      ensures !previewOpen
    {
      previewOpen := false;
    }

    /** The content writes of `saveBrand` before the brand record: the style record,
        then the logo when there is one (`''` otherwise). Nothing is registered. */
    method PutStyleAndLogo(p: IpfsStorageProvider, styleAccepted: bool, logoAccepted: bool)
      returns (r: IpfsStorageContext.Result<(Cid, string)>)
      requires p.Valid()
      modifies p`remote, p`calls
      ensures p.Valid() && p.remote.registry == old(p.remote.registry)
      ensures p.store.ipfsEndpoints.None? ==>
        r == Err(EndpointsMissing) && p.remote == old(p.remote) && p.calls == old(p.calls)
      ensures p.store.ipfsEndpoints.Some? ==>
        |p.calls| > |old(p.calls)| && p.calls[|old(p.calls)|] == DagPut(StyleRecord(background, accentColor, accentColor2))
      ensures p.store.ipfsEndpoints.Some? && !styleAccepted ==> r == Err(GatewayRejected)
      ensures p.store.ipfsEndpoints.Some? && styleAccepted && image.Some? && !HasFileApi(p.store) ==>
        r == Err(NotAFunction) && p.calls == old(p.calls) + [DagPut(StyleRecord(background, accentColor, accentColor2))]
      ensures r.Ok? <==>
        p.store.ipfsEndpoints.Some? && styleAccepted && (image.Some? ==> HasFileApi(p.store) && logoAccepted)
      ensures r.Ok? ==>
        && p.calls == old(p.calls) + [DagPut(StyleRecord(background, accentColor, accentColor2))]
                      + (if image.Some? then [AddFile(image.value)] else [])
        && FetchDag(p.remote, r.value.0) == Some(StyleRecord(background, accentColor, accentColor2))
        && (image.None? ==> r.value.1 == "")
        && (image.Some? ==> FetchFile(p.remote, r.value.1) == Some(image.value))
    {
      var style := StyleRecord(background, accentColor, accentColor2);
      var styleCid := p.PutDag(style, styleAccepted);
      if styleCid.Err? {
        return Err(styleCid.error);
      }
      assert p.remote.content[styleCid.value] == DagNode(style);
      if image.None? {
        return Ok((styleCid.value, ""));
      }
      var added := p.PutFile(image.value, logoAccepted);
      if added.Err? {
        return Err(added.error);
      }
      assert p.remote.content[added.value] == FileNode(image.value);
      r := Ok((styleCid.value, added.value));
    }

    /** `saveBrand`: throw unless the storage app is installed; put the style record,
        then add the logo if there is one (`''` otherwise), then set the brand record
        under `ORG_SETTINGS_BRAND`. `colorError` is not consulted. On a provider object
        without `add`, a logo makes the save throw after the style has been put. Each
        `*Accepted` flag is the store's answer to the corresponding write. */
    method SaveBrand(p: IpfsStorageProvider, styleAccepted: bool, logoAccepted: bool,
                     brandAccepted: bool, registerAccepted: bool) returns (r: Outcome)
      requires p.Valid()
      modifies p`remote, p`calls
      ensures p.Valid()
      ensures !Installed(p.store) ==>
        r == Fail(NoStorageApp) && p.remote == old(p.remote) && p.calls == old(p.calls)
      ensures Installed(p.store) && p.store.ipfsEndpoints.None? ==>
        r == Fail(EndpointsMissing) && p.remote == old(p.remote) && p.calls == old(p.calls)
      ensures Installed(p.store) && p.store.ipfsEndpoints.Some? ==>
        |p.calls| > |old(p.calls)| && p.calls[|old(p.calls)|] == DagPut(StyleRecord(background, accentColor, accentColor2))
      ensures Installed(p.store) && p.store.ipfsEndpoints.Some? && styleAccepted
              && image.Some? && !HasFileApi(p.store) ==>
        && r == Fail(NotAFunction)
        && p.calls == old(p.calls) + [DagPut(StyleRecord(background, accentColor, accentColor2))]
      ensures r.Fail? ==> p.remote.registry == old(p.remote.registry)
      ensures r == Pass <==>
        && Installed(p.store) && p.store.ipfsEndpoints.Some? && styleAccepted
        && (image.Some? ==> HasFileApi(p.store) && logoAccepted) && brandAccepted && registerAccepted
      ensures r == Pass ==>
        exists styleCid: Cid, logoCid: string, brandCid: Cid ::
          && p.calls == old(p.calls) + [DagPut(StyleRecord(background, accentColor, accentColor2))]
                        + (if image.Some? then [AddFile(image.value)] else [])
                        + [DagPut(BrandRecord(Str(styleCid), Str(logoCid))),
                           RegisterData(p.fromAscii(BrandKey), brandCid)]
          && Resolve(p.remote, p.fromAscii(BrandKey)) == Some(brandCid)
          && FetchDag(p.remote, brandCid) == Some(BrandRecord(Str(styleCid), Str(logoCid)))
          && FetchDag(p.remote, styleCid) == Some(StyleRecord(background, accentColor, accentColor2))
          && (image.None? ==> logoCid == "")
          && (image.Some? ==> FetchFile(p.remote, logoCid) == Some(image.value))
    {
      if !Installed(p.store) {
        return Fail(NoStorageApp);
      }
      var assets := PutStyleAndLogo(p, styleAccepted, logoAccepted);
      if assets.Err? {
        return Fail(assets.error);
      }
      var (styleCid, logoCid) := assets.value;
      ghost var remote2, calls2 := p.remote, p.calls;
      var brand := BrandRecord(Str(styleCid), Str(logoCid));
      r := p.SetDag(BrandKey, brand, brandAccepted, registerAccepted);
      if r == Pass {
        var (r3, brandCid) := ContentStore.Put(remote2, DagNode(brand));
        assert p.remote == ContentStore.Register(r3, p.fromAscii(BrandKey), brandCid);
        assert p.calls == calls2 + [DagPut(brand), RegisterData(p.fromAscii(BrandKey), brandCid)];
        assert FetchDag(p.remote, styleCid) == FetchDag(remote2, styleCid);
        assert image.Some? ==> FetchFile(p.remote, logoCid) == FetchFile(remote2, logoCid);
        assert FetchDag(p.remote, brandCid) == Some(brand);
      }
    }
  }

  /** Saving a logo on the provider object the code actually stores, which has no `add`:
      the style record is put, the save then fails, and nothing is registered. */
  method SaveBrandWithImageFails(f: BrandForm, p: IpfsStorageProvider, styleAccepted: bool,
                                 logoAccepted: bool, brandAccepted: bool, registerAccepted: bool)
    returns (r: Outcome)
    requires p.Valid() && f.image.Some? && !HasFileApi(p.store)
    modifies p`remote, p`calls
    ensures p.Valid()
    ensures r.Fail? && p.remote.registry == old(p.remote.registry)
    ensures Installed(p.store) && p.store.ipfsEndpoints.Some? && styleAccepted ==>
      && r == Fail(NotAFunction)
      && p.calls == old(p.calls) + [DagPut(StyleRecord(f.background, f.accentColor, f.accentColor2))]
  {
    r := f.SaveBrand(p, styleAccepted, logoAccepted, brandAccepted, registerAccepted);
  }
}
