/** The part of `uploadToCloudflareImages` that follows the network call:
    the success/failure split on the host's reply and the derivation of the
    two delivery URLs. The request itself is not modelled; its reply is an
    input. */
module Upload {
  import opened Wrappers

  const DeliveryHost := "https://imagedelivery.net/"
  const FullVariant := "productfull"
  const ThumbVariant := "productthumb"

  const FailurePrefix := "Upload thất bại: "

  /** What the upload call gives back, seen from the handler. */
  datatype HostReply =
    | Succeeded(id: string)             // `success` true; `result.id`
    | Rejected(firstMessage: string)    // `success` false; `errors[0].message`
    | Threw(message: string)            // the request or reading its JSON threw

  datatype Uploaded = Uploaded(fullUrl: string, thumbUrl: string, imageId: string)

  /** The delivery URL of one variant of an image: host, account id, image id
      and variant name joined by `/`. The contract places every separator and
      every segment but the image id, and the length leaves exactly the image
      id's length between the two separators; `ImageIdOfDeliveryUrl` shows that
      this gap is the image id itself, so the two together give the whole URL. */
  function DeliveryUrl(deliveryAccountId: string, imageId: string, variant: string): (url: string)
    ensures var a := |DeliveryHost| + |deliveryAccountId|;
      && |url| == a + |imageId| + |variant| + 2
      && url[..|DeliveryHost|] == DeliveryHost
      && url[|DeliveryHost|..a] == deliveryAccountId
      && url[a] == '/'
      && url[a + 1 + |imageId|] == '/'
      && url[a + 2 + |imageId|..] == variant
  {
    DeliveryHost + deliveryAccountId + "/" + imageId + "/" + variant
  }

  /** Recovers the image id from a delivery URL of the given account and
      variant; the inverse of `DeliveryUrl` in its image id. */
  function ImageIdOf(deliveryAccountId: string, variant: string, url: string): (r: Option<string>)
    ensures r.Some? ==> DeliveryUrl(deliveryAccountId, r.value, variant) == url
  {
    var prefix := DeliveryHost + deliveryAccountId + "/";
    var suffix := "/" + variant;
    if |prefix| + |suffix| <= |url| && url[..|prefix|] == prefix && url[|url| - |suffix|..] == suffix then
      var id := url[|prefix|..|url| - |suffix|];
      assert url == prefix + id + suffix by {
        assert url == url[..|prefix|] + url[|prefix|..|url| - |suffix|] + url[|url| - |suffix|..];
      }
      Some(id)
    else
      None
  }

  /** Reading the image id back out of a delivery URL gives the id it was
      built from. */
  lemma {:induction false} ImageIdOfDeliveryUrl(deliveryAccountId: string, imageId: string, variant: string)
    ensures ImageIdOf(deliveryAccountId, variant, DeliveryUrl(deliveryAccountId, imageId, variant)) == Some(imageId)
  {
    var prefix := DeliveryHost + deliveryAccountId + "/";
    var suffix := "/" + variant;
    var url := DeliveryUrl(deliveryAccountId, imageId, variant);
    assert url == prefix + imageId + suffix;
    assert url[..|prefix|] == prefix;
    assert url[|url| - |suffix|..] == suffix;
    assert url[|prefix|..|url| - |suffix|] == imageId;
  }

  /** A delivery URL determines its image id: distinct ids give distinct URLs. */
  lemma {:induction false} DeliveryUrlInjective(deliveryAccountId: string, id1: string, id2: string, variant: string)
    ensures DeliveryUrl(deliveryAccountId, id1, variant) == DeliveryUrl(deliveryAccountId, id2, variant) <==> id1 == id2
  {
    ImageIdOfDeliveryUrl(deliveryAccountId, id1, variant);
    ImageIdOfDeliveryUrl(deliveryAccountId, id2, variant);
  }

  /** The URLs for an image: both carry the same delivery account and image
      id, and they differ only in the final segment, `productfull` against
      `productthumb`. */
  function UrlsFor(deliveryAccountId: string, imageId: string): (u: Uploaded)
    ensures u.imageId == imageId
    ensures ImageIdOf(deliveryAccountId, FullVariant, u.fullUrl) == Some(imageId)
    ensures ImageIdOf(deliveryAccountId, ThumbVariant, u.thumbUrl) == Some(imageId)
    ensures exists base :: u.fullUrl == base + FullVariant && u.thumbUrl == base + ThumbVariant
    ensures u.fullUrl != u.thumbUrl
  {
    ImageIdOfDeliveryUrl(deliveryAccountId, imageId, FullVariant);
    ImageIdOfDeliveryUrl(deliveryAccountId, imageId, ThumbVariant);
    var base := DeliveryHost + deliveryAccountId + "/" + imageId + "/";
    assert DeliveryUrl(deliveryAccountId, imageId, FullVariant) == base + FullVariant;
    assert DeliveryUrl(deliveryAccountId, imageId, ThumbVariant) == base + ThumbVariant;
    Uploaded(DeliveryUrl(deliveryAccountId, imageId, FullVariant),
             DeliveryUrl(deliveryAccountId, imageId, ThumbVariant),
             imageId)
  }

  /** The outcome of the upload: the URLs on success, otherwise the message
      of the exception that `uploadToCloudflareImages` lets escape. */
  function UploadResult(deliveryAccountId: string, reply: HostReply): (r: Result<Uploaded>)
    ensures r.Success? <==> reply.Succeeded?
    ensures r.Success? ==> r.value == UrlsFor(deliveryAccountId, reply.id)
    ensures reply.Rejected? ==> r.error == FailurePrefix + reply.firstMessage
    ensures reply.Threw? ==> r.error == reply.message
  {
    match reply
    case Succeeded(id) => Success(UrlsFor(deliveryAccountId, id))
    case Rejected(m) => Failure(FailurePrefix + m)
    case Threw(m) => Failure(m)
  }

  /** The rejection message keeps the host's first error message verbatim:
      it can be read back as the text after the fixed prefix. */
  lemma {:induction false} RejectionKeepsHostMessage(deliveryAccountId: string, m: string)
    ensures var r := UploadResult(deliveryAccountId, Rejected(m));
      r.Failure? && |FailurePrefix| <= |r.error| &&
      r.error[..|FailurePrefix|] == FailurePrefix && r.error[|FailurePrefix|..] == m
  {
  }
}
