/** The `metadata` object the handler sends along with the upload: a remote
    compositing directive with a single `draw` entry that asks the image host
    to overlay the watermark. No pixels are touched here. */
module Directive {
  import opened Wrappers
  import opened JsMath
  import opened Config

  /** One entry of `draw`: overlay source, opacity, overlay width in pixels and
      the top-left corner offset. */
  datatype Draw = Draw(url: string, opacity: Fraction, width: int, x: int, y: int)

  datatype Metadata = Metadata(typ: string, draw: seq<Draw>)

  /** The V8 engine's TypeError messages for reading a property of undefined:
      `.full_size` of a missing catalog entry, and `.width` of the undefined
      `full_size` of an inherited Object.prototype member. */
  const NoFullSizeMessage := "Cannot read properties of undefined (reading 'full_size')"
  const NoWidthMessage := "Cannot read properties of undefined (reading 'width')"

  /** `Math.round(fullWidth * scale)`: the integer nearest to the scaled
      width, halves rounded up. */
  function OverlayWidth(fullWidth: nat, scale: Fraction): (w: int)
    requires scale.den > 0
    ensures 2 * (fullWidth * scale.num) - scale.den < 2 * scale.den * w
    ensures 2 * scale.den * w <= 2 * (fullWidth * scale.num) + scale.den
    ensures scale.num <= scale.den ==> 0 <= w <= fullWidth
  {
    RoundedScaleAtMostWidth(fullWidth, scale);
    Round(fullWidth * scale.num, scale.den)
  }

  /** The directive for the type named by `key`, or the message of the
      TypeError the lookup `config.image_types[key].full_size.width` throws. */
  function BuildMetadata(key: string): (r: Result<Metadata>)
    ensures r.Success? <==> key == ProductKey
    ensures r.Success? ==>
      && r.value.typ == key
      && |r.value.draw| == 1
      && r.value.draw[0].url == WatermarkSettings.url
      && r.value.draw[0].opacity == Fraction(5, 10)
      && r.value.draw[0].width == 576
      && r.value.draw[0].x == 10 && r.value.draw[0].y == 10
    ensures r.Failure? ==>
      r.error == if key in InheritedNames then NoWidthMessage else NoFullSizeMessage
  {
    match LookupImageType(key)
    case Missing => Failure(NoFullSizeMessage)
    case Inherited => Failure(NoWidthMessage)
    case Own(entry) =>
      var w := WatermarkSettings;
      Success(Metadata(key, [Draw(w.url, w.opacity, OverlayWidth(entry.fullSize.width, w.scale),
                                  w.position.x, w.position.y)]))
  }

  /** The overlay width is the catalog's full width scaled by 0.3 and rounded,
      it is the only integer within half a pixel of that product (halves up),
      and it never exceeds the full width. */
  lemma {:induction false} ProductOverlayWidth()
    ensures ImageTypes[ProductKey].fullSize.width == 1920
    ensures forall w: int :: 2 * (1920 * 3) - 10 < 2 * 10 * w <= 2 * (1920 * 3) + 10 <==> w == 576
    ensures OverlayWidth(1920, WatermarkSettings.scale) == 576 <= 1920
  {
  }
}
