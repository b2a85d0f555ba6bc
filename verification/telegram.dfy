/**
 * The Telegram side of a handler, reduced to values: the user who sent an
 * update, the per-user dictionary the bot library keeps between updates
 * (`context.user_data`), inline buttons, and what a handler sends back.
 */
module Telegram {
  import opened Wrappers

  /** The sender of an update: `user.id`, `user.username` (which Telegram may omit) and `user.first_name`. */
  datatype User = User(id: int, username: Option<string>, firstName: string)

  /** An inline keyboard button: its caption and its callback data. */
  datatype Button = Button(text: string, data: string)

  /**
   * What a handler sends: nothing, a text, a text with inline buttons, a text
   * followed by stored photos, or one photo with a caption.
   */
  datatype Reply =
    | NoReply
    | Message(text: string)
    | Menu(text: string, buttons: seq<Button>)
    | MessageWithPhotos(text: string, photos: seq<string>)
    | PhotoWithCaption(fileId: string, caption: string)

  /** `context.user_data`; both bots keep only strings in it. */
  class UserData {
    var entries: map<string, string>

    /** A user the bot has not seen yet starts with an empty dictionary. */
    constructor ()
      ensures entries == map[]
    {
      entries := map[];
    }

    /** `user_data[key] = value`. */
    method Set(key: string, value: string)
      modifies this
      ensures entries == old(entries)[key := value]
    {
      entries := entries[key := value];
    }

    /** `user_data.pop(key, None)`: removes the key if present. */
    method Pop(key: string)
      modifies this
      ensures entries == old(entries) - {key}
    {
      entries := entries - {key};
    }

    /** `user_data.clear()`. */
    method Clear()
      modifies this
      ensures entries == map[]
    {
      entries := map[];
    }
  }
}
