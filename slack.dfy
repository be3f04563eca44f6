/**
 * The part of a Slack incoming-webhook message the relay builds: the
 * `username`/`icon_url` overrides, the plain-text fallback and the ordered
 * blocks.  The `type` tags of the JSON objects are kept as strings.
 */
module Slack {
  import opened Wrappers

  /** A text object, e.g. `{ type: "mrkdwn", text: ... }`. */
  datatype TextObject = TextObject(kind: string, text: string)

  /** A block accessory, e.g. `{ type: "image", image_url: ... }`. */
  datatype Accessory = Accessory(kind: string, imageUrl: string)

  /** A layout block; the relay only builds sections, with or without an accessory. */
  datatype Block = Block(kind: string, text: TextObject, accessory: Option<Accessory>)

  datatype Message = Message(username: string, iconUrl: string, text: string, blocks: seq<Block>)

  /** The `defaultSendArguments` every message is spread from. */
  const DefaultUsername: string := "GitHub Sponsor"
  const DefaultIconUrl: string := "https://github.githubassets.com/images/modules/site/sponsors/logo-mona.svg"

  /** A `section` block whose text is Slack markup. */
  function MarkdownSection(markup: string, accessory: Option<Accessory>): Block {
    Block("section", TextObject("mrkdwn", markup), accessory)
  }

  /** An `image` accessory. */
  function ImageAccessory(url: string): Accessory {
    Accessory("image", url)
  }
}
