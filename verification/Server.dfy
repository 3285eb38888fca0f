/**
 What the Suite API may answer. The request numbered n of a cycle gets an arbitrary
 reply; nothing is assumed of a server unless a lemma says so.
 */
module Server {
  import opened Common
  import opened Constants

  /**
   A body, a non-2xx status, an exception while sending or decoding, or a decoded body that its
   caller cannot read: the request has then succeeded, and only its reading raises.
   */
  datatype Reply<+T> = Body(body: T) | NotOk | Raised | Malformed

  /** The request itself succeeded, whatever its body turns out to be. */
  predicate Succeeded<T>(reply: Reply<T>) {
    reply.Body? || reply.Malformed?
  }

  /** Its caller gets an exception. */
  predicate Raises<T>(reply: Reply<T>) {
    reply.Raised? || reply.Malformed?
  }

  /** What a bulk reply says of one resource. */
  datatype Entry<+A> = Entry(resourceId: Id, content: A)

  datatype RawStat = RawStat(key: string, data: seq<real>, timestamps: seq<int>)

  datatype RawProp = RawProp(key: string, values: seq<string>)

  datatype Child = Child(id: Id, name: string, kind: Kind)

  /** The identity the server holds for an object; its inside is opaque here. */
  datatype ResourceKey = ResourceKey(name: string, identity: string)

  datatype InventoryEntry = InventoryEntry(id: Id, key: Option<ResourceKey>)

  datatype Page = Page(resources: seq<InventoryEntry>, totalCount: Option<int>)

  type StatsReply = Reply<seq<Entry<seq<RawStat>>>>
  type PropsReply = Reply<seq<Entry<seq<RawProp>>>>

  /** Replies by request number and request. */
  datatype Api = Api(
    stats: (nat, seq<Id>, seq<string>) -> StatsReply,
    props: (nat, seq<Id>, seq<string>) -> PropsReply,
    children: (nat, Id) -> Reply<seq<Child>>,
    query: (nat, Kind, nat) -> Reply<Page>
  )
}
