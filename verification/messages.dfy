/** Conversation messages as the module passes them around (already-parsed dictionaries). */
module Messages {

  datatype Role = System | User | Assistant

  /** The `source` object of a Claude image part: `{type, media_type, data}`. */
  datatype ImageSource = ImageSource(encoding: string, mediaType: string, data: string)

  /**
   * One element of a list content. OpenAI-style images carry a data URL under
   * `image_url.url`; Claude-style images carry an `ImageSource`.
   */
  datatype Part =
    | TextPart(text: string)
    | ImageUrlPart(url: string)
    | ImagePart(source: ImageSource)

  /** A message's content is either a plain string or a list of parts. */
  datatype Content = Text(text: string) | Parts(parts: seq<Part>)

  datatype Message = Message(role: Role, content: Content)

  /** A sampling temperature, carried as the literal the request is built with. */
  datatype Temperature = Temperature(literal: string)

  const ZeroTemperature := Temperature("0.0")
}
