/**
 * Extraction of the media type and base64 payload from an image data URL,
 * `scheme:media-type;encoding,payload`, by the three Python splits the
 * translator applies to it.
 */
module DataUrl {
  import opened Wrappers
  import opened Errors
  import opened PyStrings

  datatype MediaPayload = MediaPayload(mediaType: string, data: string)

  /**
   * The media type is the second `:`-piece of the first `;`-piece, and the
   * payload is the second `,`-piece of the whole URL. Either index is out of
   * range (an IndexError) when its separator is missing.
   */
  function ParseDataUrl(url: string): (r: Result<MediaPayload, Error>)
    ensures r.Ok? <==> ':' in Split(url, ';')[0] && ',' in url
    ensures r.Ok? ==> ':' !in r.value.mediaType && ';' !in r.value.mediaType && ',' !in r.value.data
    ensures r.Err? ==> r.error == MalformedDataUrl(url)
  {
    var head := Split(url, ';')[0];
    var headPieces := Split(head, ':');
    var commaPieces := Split(url, ',');
    if |headPieces| < 2 || |commaPieces| < 2 then Err(MalformedDataUrl(url))
    else
      assert forall ch :: ch in headPieces[1] ==> ch in head;
      Ok(MediaPayload(headPieces[1], commaPieces[1]))
  }

  /** The data URL with the given parts. */
  function DataUrlOf(scheme: string, mediaType: string, encoding: string, payload: string): string
  {
    scheme + ":" + mediaType + ";" + encoding + "," + payload
  }

  /**
   * Extraction inverts construction: the media type and the payload come back
   * unchanged whenever no part holds a separator that an earlier split would
   * stop at.
   */
  lemma {:induction false} ParseRoundTrip(scheme: string, mediaType: string, encoding: string, payload: string)
    requires ':' !in scheme && ';' !in scheme && ',' !in scheme
    requires ':' !in mediaType && ';' !in mediaType && ',' !in mediaType
    requires ',' !in encoding && ',' !in payload
    ensures ParseDataUrl(DataUrlOf(scheme, mediaType, encoding, payload)) == Ok(MediaPayload(mediaType, payload))
  {
    var url := DataUrlOf(scheme, mediaType, encoding, payload);
    var head := scheme + ":" + mediaType;
    var beforeComma := head + ";" + encoding;
    assert url == head + [';'] + (encoding + "," + payload);
    SplitAtFirst(head, ';', encoding + "," + payload);
    assert head == scheme + [':'] + mediaType;
    SplitAtFirst(scheme, ':', mediaType);
    assert url == beforeComma + [','] + payload;
    SplitAtFirst(beforeComma, ',', payload);
  }
}
