/** The records shared by every page of the couple app: users, chat messages,
    savings entries and gallery photos, as the front end holds them in memory.
    Timestamps are milliseconds since the epoch, amounts are whole rupiah. */
module Types {

  datatype Option<+T> = None | Some(value: T) {
    /** JavaScript's `x || fallback` on an optional value. */
    function GetOr(default: T): T {
      match this
      case Some(v) => v
      case None => default
    }
  }

  /** 'admin' | 'user' */
  datatype Role = AdminRole | UserRole

  /** 'pending' | 'accepted' | 'rejected' */
  datatype SavingStatus = Pending | Accepted | Rejected

  /** 'QRIS' | 'DANA' */
  datatype PaymentMethod = QRIS | DANA

  /** 'youtube' | 'local' */
  datatype VideoType = YouTube | Local

  /** 'nobar_invite' | 'image' | 'system' */
  datatype MetaType = NobarInvite | Image | SystemNote

  /** 'active' | 'ended' */
  datatype NobarStatus = Active | Ended

  /** The loosely typed `metadata` object of a message. Every field is optional,
      so the empty object `{}` that the database layer writes for a plain message
      is `EmptyMetadata`. */
  datatype Metadata = Metadata(
    kind: Option<MetaType>,
    videoUrl: Option<string>,
    videoType: Option<VideoType>,
    status: Option<NobarStatus>,
    startTime: Option<int>)

  const EmptyMetadata := Metadata(None, None, None, None, None)

  datatype User = User(
    uid: string,
    username: string,     // the handle without '@'
    userId: string,       // the handle with '@'
    displayName: string,
    email: string,
    password: string,
    photoUrl: string,
    role: Role,
    createdAt: int)

  datatype Message = Message(
    messageId: string,
    chatId: string,
    senderId: string,
    text: string,
    timestamp: int,
    isAi: Option<bool>,
    metadata: Option<Metadata>)

  datatype Saving = Saving(
    savingId: string,
    userId: string,
    userName: string,
    amount: int,
    paymentMethod: PaymentMethod,
    proofImage: string,
    status: SavingStatus,
    createdAt: int)

  datatype GalleryPhoto = GalleryPhoto(
    photoId: string,
    imageUrl: string,
    title: string,
    caption: string,
    uploadedBy: string,
    uploaderName: string,
    isPublic: bool,
    createdAt: int)

  /** The sender identifier the assistant's messages carry in memory. */
  const AssistantSender := "aura-ai"

  /** `msg.metadata?.type === 'nobar_invite'` */
  predicate IsNobarInvite(m: Message) {
    m.metadata.Some? && m.metadata.value.kind == Some(NobarInvite)
  }
}
