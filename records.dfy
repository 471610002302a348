/** The records of a Ghost export: what the importer decodes and what it resolves against. */
module Records {
  import opened Wrappers
  import JsonStream
  import opened Coerce

  /** An entry with an id and a name; `user` and `tag` have exactly this shape. */
  datatype Named = Named(id: int, name: string)
  /** A `user` of the export. */
  type User = Named
  /** A `tag` of the export. */
  type Tag = Named

  /** A `posttag`: links post `postId` to tag `tagId`. */
  datatype PostTag = PostTag(id: int, postId: int, tagId: int, sortOrder: int)

  /** The export's `meta` object, decoded but not used afterwards. */
  datatype Meta = Meta(exportedOn: int, version: string)

  /** The reference index built before any post is read (Go's `ghostInfo`). */
  datatype GhostInfo = GhostInfo(m: Meta, users: seq<User>, tags: seq<Tag>, postTags: seq<PostTag>)

  /** `var gi ghostInfo`: every field at its zero value. */
  const EmptyInfo := GhostInfo(Meta(0, ""), [], [], [])

  /**
   * A `Post` as a value: the fields filled by decoding (`id` … `createdAt`)
   * and the fields `populate` fills in (`published` … `tags`). The latter have
   * no JSON tag, so decoding may also set them when the object has keys of
   * those names.
   */
  datatype PostRecord = PostRecord(
    id: int,
    title: string,
    slug: string,
    content: string,
    image: string,
    page: RawValue,
    status: string,
    metaDescription: string,
    authorId: int,
    publishedAt: RawValue,
    createdAt: RawValue,
    published: Time,
    created: Time,
    isDraft: bool,
    isPage: bool,
    author: string,
    tags: seq<string>)

  /**
   * Unmarshalling a value's tokens into each Go type the importer decodes
   * into; `None` is a type error. These stand for `encoding/json`'s
   * reflection, which is not modelled.
   */
  datatype Decoders = Decoders(
    meta: seq<JsonStream.Token> -> Option<Meta>,
    users: seq<JsonStream.Token> -> Option<seq<User>>,
    tags: seq<JsonStream.Token> -> Option<seq<Tag>>,
    postTags: seq<JsonStream.Token> -> Option<seq<PostTag>>,
    post: seq<JsonStream.Token> -> Option<PostRecord>)
}
