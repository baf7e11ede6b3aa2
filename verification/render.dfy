/** `_render_message`: turns one value produced by the sampling loop into what
    the chat shows. The values form a closed union; Python's `isinstance`
    chain becomes a `match`.

    Three things the function relies on live outside app.py and are
    parameters here: the truth value of a non-string message (`bool(message)`,
    which for a tool result is `ToolResult.__bool__`), the truth value of
    `state["hide_images"]`, and `base64.b64decode`. */
module Render {
  import opened Wrappers

  /** The shapes a message can take. A tool result's three fields are
      optional strings; the tool-use input is its printed form. */
  datatype Msg =
    | Str(s: string)
    | TextBlock(text: string)
    | ToolUse(name: string, input: string)
    | ToolResult(output: Option<string>, error: Option<string>, image: Option<string>)
    | Other(repr: string)

  /** What is shown: text, decoded image bytes, or the message itself. */
  datatype Rendered = Text(text: string) | Image(bytes: seq<bv8>) | Unchanged(msg: Msg)

  /** Python's `not message`: a string is falsy exactly when it is empty; any
      other message is falsy as `truthy` says. */
  predicate Falsy(m: Msg, truthy: Msg -> bool) {
    match m
    case Str(s) => s == ""
    case _ => !truthy(m)
  }

  /** The truth value of an optional string field: present and non-empty. */
  predicate Present(field: Option<string>) {
    field.Some? && field.value != ""
  }

  /** `hasattr(message, attr)` for the messages that reach that test: tool
      results, whose `output`, `error` and `base64_image` are fields. */
  predicate HasAttr(m: Msg, attr: string) {
    m.ToolResult? && attr in {"output", "error", "base64_image"}
  }

  /** The case in which nothing is shown: a falsy message, or a tool result
      with no output, no error, and either no image or images hidden. */
  predicate ShowsNothing(m: Msg, hideImages: bool, truthy: Msg -> bool) {
    || Falsy(m, truthy)
    || (m.ToolResult? && !Present(m.output) && !Present(m.error)
        && (!Present(m.image) || hideImages))
  }

  /** `_render_message`, with the source's suppression test kept as written:
      its `hasattr` conjuncts never hold for a tool result. */
  function RenderMessage(m: Msg, hideImages: bool, truthy: Msg -> bool, decode: string -> seq<bv8>)
    : (r: Option<Rendered>)
    ensures r.None? <==> ShowsNothing(m, hideImages, truthy)
    ensures r.Some? && r.value.Image? ==> m.ToolResult? && !hideImages && Present(m.image)
                                          && r.value.bytes == decode(m.image.value)
    ensures r.Some? && r.value.Unchanged? ==> r.value.msg == m && (m.Str? || m.Other?)
  {
    if Falsy(m, truthy)
       || (m.ToolResult? && hideImages && !HasAttr(m, "error") && !HasAttr(m, "output"))
    then None
    else
      match m
      case ToolResult(output, error, image) =>
        if Present(output) then Some(Text(output.value))
        else if Present(error) then Some(Text("Error: " + error.value))
        else if Present(image) && !hideImages then Some(Image(decode(image.value)))
        else None
      case TextBlock(text) => Some(Text(text))
      case ToolUse(name, input) => Some(Text("Tool Use: " + name + "\nInput: " + input))
      case _ => Some(Unchanged(m))
  }

  /** A truthy tool result with output shows the output, whatever its error
      and image fields hold and whether images are hidden. */
  lemma OutputWins(output: string, error: Option<string>, image: Option<string>,
                   hideImages: bool, truthy: Msg -> bool, decode: string -> seq<bv8>)
    requires output != ""
    requires truthy(ToolResult(Some(output), error, image))
    ensures RenderMessage(ToolResult(Some(output), error, image), hideImages, truthy, decode)
            == Some(Text(output))
  {
  }

  /** Without output, a non-empty error is shown with an "Error: " prefix,
      whatever the image field holds. */
  lemma ErrorShown(output: Option<string>, error: string, image: Option<string>,
                   hideImages: bool, truthy: Msg -> bool, decode: string -> seq<bv8>)
    requires !Present(output) && error != ""
    requires truthy(ToolResult(output, Some(error), image))
    ensures RenderMessage(ToolResult(output, Some(error), image), hideImages, truthy, decode)
            == Some(Text("Error: " + error))
  {
  }

  /** A tool result carrying only an image shows the decoded image exactly
      when images are not hidden, and otherwise nothing. */
  lemma ImageOnlyShownUnlessHidden(output: Option<string>, error: Option<string>, image: string,
                                   hideImages: bool, truthy: Msg -> bool, decode: string -> seq<bv8>)
    requires !Present(output) && !Present(error) && image != ""
    requires truthy(ToolResult(output, error, Some(image)))
    ensures var r := RenderMessage(ToolResult(output, error, Some(image)), hideImages, truthy, decode);
      && (!hideImages ==> r == Some(Image(decode(image))))
      && (hideImages ==> r == None)
  {
  }

  /** Text blocks show their text; tool-use blocks show name and input on two
      lines; strings and other values pass through unchanged. */
  lemma BlocksAndPassThrough(m: Msg, hideImages: bool, truthy: Msg -> bool, decode: string -> seq<bv8>)
    requires !Falsy(m, truthy)
    ensures var r := RenderMessage(m, hideImages, truthy, decode);
      && (m.TextBlock? ==> r == Some(Text(m.text)))
      && (m.ToolUse? ==> r == Some(Text("Tool Use: " + m.name + "\nInput: " + m.input)))
      && (m.Str? || m.Other? ==> r == Some(Unchanged(m)))
  {
  }

  /** The source's extra suppression clause (hide images, and the message has
      neither an `error` nor an `output` attribute) never fires. */
  lemma SuppressionClauseNeverFires(m: Msg, hideImages: bool)
    ensures !(m.ToolResult? && hideImages && !HasAttr(m, "error") && !HasAttr(m, "output"))
  {
  }

  /** The renderer with the suppression clause testing the field values
      rather than the attributes, as the clause evidently meant. */
  function RenderTestingValues(m: Msg, hideImages: bool, truthy: Msg -> bool, decode: string -> seq<bv8>)
    : Option<Rendered>
  {
    if Falsy(m, truthy)
       || (m.ToolResult? && hideImages && !Present(m.error) && !Present(m.output))
    then None
    else RenderMessage(m, hideImages, truthy, decode)
  }

  /** Whether the suppression clause tests attributes or values makes no
      difference: an image-only result with images hidden is dropped by the
      image test anyway. */
  lemma SuppressionClauseRedundant(m: Msg, hideImages: bool, truthy: Msg -> bool, decode: string -> seq<bv8>)
    ensures RenderTestingValues(m, hideImages, truthy, decode) == RenderMessage(m, hideImages, truthy, decode)
  {
  }
}
