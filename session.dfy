/** internal/client/session: the four session states and the profile summary
    the vault hands to the session logic. */
module Session {
  import opened Wrappers
  import Codec
  import Kcrypt

  /** The session states ("no", "need_pin", "suspended", "active"). */
  datatype State = NoSession | NeedPin | Suspended | Active

  /** session.UserInfo: an empty HashPin / HashToken string is `None`. */
  datatype UserInfo = UserInfo(
    id: string,
    hashPin: Option<Kcrypt.Digest>,
    hashToken: Option<Codec.Blob<string>>)
}
