/** The handler's `config` object literal: the account identifiers, the
    one-entry image-type catalog and the watermark settings, together with the
    JavaScript property lookup `config.image_types[type]` made on it. */
module Config {
  import opened JsMath

  /** The three ambient globals the handler copies into `config.cloudflare`;
      opaque strings supplied by the deployment. */
  datatype Accounts = Accounts(accountId: string, deliveryAccountId: string, apiToken: string)

  datatype Size = Size(width: nat, height: nat, fit: string)

  datatype ImageType = ImageType(fullSize: Size, thumbSize: Size)

  datatype Position = Position(x: int, y: int)

  datatype Watermark = Watermark(url: string, opacity: Fraction, scale: Fraction, position: Position)

  const ProductKey := "product"

  /** `config.image_types`: its only own property is `product`. */
  const ImageTypes: map<string, ImageType> :=
    map[ProductKey := ImageType(Size(1920, 1080, "cover"), Size(300, 300, "cover"))]

  const WatermarkSettings := Watermark(
    "https://test-togihome.c79802e0b589c59dfc480b8b687fda90.r2.cloudflarestorage.com/togihome-watermark-origin.png",
    Fraction(5, 10),
    Fraction(3, 10),
    Position(10, 10))

  /** The properties every plain object literal inherits from `Object.prototype`
      in the V8 engine, `__proto__` included. Looking one of them up on
      `config.image_types` yields a function or an object, not undefined. */
  const InheritedNames: set<string> := {
    "constructor", "__defineGetter__", "__defineSetter__", "hasOwnProperty",
    "__lookupGetter__", "__lookupSetter__", "isPrototypeOf", "propertyIsEnumerable",
    "toString", "valueOf", "__proto__", "toLocaleString"
  }

  /** What `config.image_types[key]` evaluates to. */
  datatype Lookup =
    | Own(entry: ImageType)  // a catalog entry
    | Inherited              // an Object.prototype member; it has no `full_size`
    | Missing                // undefined

  function LookupImageType(key: string): (r: Lookup)
    ensures r.Own? <==> key == ProductKey
    ensures r.Own? ==> r.entry.fullSize.width == 1920 && r.entry.thumbSize.width == 300
    ensures r.Inherited? <==> key != ProductKey && key in InheritedNames
    ensures r.Missing? <==> key != ProductKey && key !in InheritedNames
  {
    if key in ImageTypes then Own(ImageTypes[key])
    else if key in InheritedNames then Inherited
    else Missing
  }
}
