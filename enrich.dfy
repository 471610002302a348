/**
 * Post enrichment (`Post.populate`): normalise the two timestamps and the
 * page flag, classify drafts, and resolve the author id and the tag links
 * against the reference index.
 */
module Enrich {
  import opened Wrappers
  import opened Coerce
  import opened Records

  /** The name of the first entry with id `id`, as a linear search that stops at the first hit finds it. */
  function Lookup(entries: seq<Named>, id: int): Option<string> {
    if entries == [] then None
    else if entries[0].id == id then Some(entries[0].name)
    else Lookup(entries[1..], id)
  }

  /** The search returns the entry at the first index that carries the id. */
  lemma {:induction false} LookupFirst(entries: seq<Named>, id: int, k: nat)
    requires k < |entries| && entries[k].id == id
    requires forall j :: 0 <= j < k ==> entries[j].id != id
    ensures Lookup(entries, id) == Some(entries[k].name)
  {
    if k > 0 {
      assert entries[0].id != id;
      forall j | 0 <= j < k - 1
        ensures entries[1..][j].id != id
      {
        assert entries[1..][j] == entries[j + 1];
      }
      LookupFirst(entries[1..], id, k - 1);
    }
  }

  /** The search finds nothing exactly when no entry carries the id. */
  lemma {:induction false} LookupMissing(entries: seq<Named>, id: int)
    ensures Lookup(entries, id).None? <==> forall k :: 0 <= k < |entries| ==> entries[k].id != id
  {
    if entries != [] {
      LookupMissing(entries[1..], id);
      forall k | 1 <= k < |entries|
        ensures entries[k] == entries[1..][k - 1]
      {
      }
    }
  }

  /** An entry that is present is always found. */
  lemma LookupPresent(entries: seq<Named>, e: Named)
    requires e in entries
    ensures Lookup(entries, e.id).Some?
  {
    var k :| 0 <= k < |entries| && entries[k] == e;
    LookupMissing(entries, e.id);
  }

  /** What one link adds to post `postId`'s tags: the linked tag's name, if the link is the post's and the tag is known. */
  function LinkTag(link: PostTag, tags: seq<Tag>, postId: int): seq<string> {
    if link.postId != postId then []
    else match Lookup(tags, link.tagId)
      case Some(name) => [name]
      case None => []
  }

  /** The names `populate` appends for post `postId`, in link order. */
  function LinkedTags(links: seq<PostTag>, tags: seq<Tag>, postId: int): seq<string> {
    if links == [] then []
    else LinkTag(links[0], tags, postId) + LinkedTags(links[1..], tags, postId)
  }

  /** How many links belong to post `postId`. */
  function CountLinks(links: seq<PostTag>, postId: int): nat {
    if links == [] then 0
    else (if links[0].postId == postId then 1 else 0) + CountLinks(links[1..], postId)
  }

  /** Tag names come out in the order of the links: the names of a concatenation are the concatenated names. */
  lemma {:induction false} LinkedTagsAppend(a: seq<PostTag>, b: seq<PostTag>, tags: seq<Tag>, postId: int)
    ensures LinkedTags(a + b, tags, postId) == LinkedTags(a, tags, postId) + LinkedTags(b, tags, postId)
  {
    if a == [] {
      assert a + b == b;
    } else {
      assert (a + b)[0] == a[0];
      assert (a + b)[1..] == a[1..] + b;
      LinkedTagsAppend(a[1..], b, tags, postId);
    }
  }

  /**
   * At most one name per link of the post; exactly one per link when every
   * link of the post names a known tag.
   */
  lemma {:induction false} LinkedTagsCount(links: seq<PostTag>, tags: seq<Tag>, postId: int)
    ensures |LinkedTags(links, tags, postId)| <= CountLinks(links, postId)
    ensures (forall k :: 0 <= k < |links| && links[k].postId == postId ==> Lookup(tags, links[k].tagId).Some?) ==>
      |LinkedTags(links, tags, postId)| == CountLinks(links, postId)
  {
    if links != [] {
      LinkedTagsCount(links[1..], tags, postId);
      forall k | 0 <= k < |links| - 1
        ensures links[1..][k] == links[k + 1]
      {
      }
    }
  }

  /** Every link of the post to a tag that is in the index contributes that tag's name. */
  lemma {:induction false} LinkedTagsComplete(links: seq<PostTag>, tags: seq<Tag>, postId: int, k: nat, t: Tag)
    requires k < |links| && links[k].postId == postId
    requires t in tags && t.id == links[k].tagId
    ensures Lookup(tags, t.id).Some? && Lookup(tags, t.id).value in LinkedTags(links, tags, postId)
  {
    LookupPresent(tags, t);
    if k > 0 {
      assert links[1..][k - 1] == links[k];
      LinkedTagsComplete(links[1..], tags, postId, k - 1, t);
    }
  }

  /** Every name added comes from a link of the post, via the lookup of its tag id. */
  lemma {:induction false} LinkedTagsSound(links: seq<PostTag>, tags: seq<Tag>, postId: int, name: string)
    requires name in LinkedTags(links, tags, postId)
    ensures exists k :: 0 <= k < |links| && links[k].postId == postId && Lookup(tags, links[k].tagId) == Some(name)
  {
    if name in LinkTag(links[0], tags, postId) {
      assert links[0].postId == postId && Lookup(tags, links[0].tagId) == Some(name);
    } else {
      LinkedTagsSound(links[1..], tags, postId, name);
      var k :| 0 <= k < |links[1..]| && links[1..][k].postId == postId && Lookup(tags, links[1..][k].tagId) == Some(name);
      assert links[k + 1] == links[1..][k];
    }
  }

  /** The post after `populate` has run on decoded post `p`. */
  function Populated(p: PostRecord, gi: GhostInfo, s: Settings, parseIn: LayoutParser): PostRecord {
    p.(published := ParseTime(s, p.publishedAt, parseIn),
       created := ParseTime(s, p.createdAt, parseIn),
       isDraft := p.status == "draft",
       isPage := ParseBool(p.page),
       author := Lookup(gi.users, p.authorId).GetOr(p.author),
       tags := p.tags + LinkedTags(gi.postTags, gi.tags, p.id))
  }

  /**
   * The derived flags and timestamps, and that the decoded fields are kept:
   * a post is a draft exactly when its status is the string "draft"
   * (case-sensitive).
   */
  lemma PopulatedFlags(p: PostRecord, gi: GhostInfo, s: Settings, parseIn: LayoutParser)
    ensures var r := Populated(p, gi, s, parseIn);
      && (r.isDraft <==> p.status == "draft")
      && r.isPage == ParseBool(p.page)
      && r.published == ParseTime(s, p.publishedAt, parseIn)
      && r.created == ParseTime(s, p.createdAt, parseIn)
      && r.(published := p.published, created := p.created, isDraft := p.isDraft, isPage := p.isPage,
            author := p.author, tags := p.tags) == p
  {
  }

  /** The author is the name of the first user whose id is the post's author id. */
  lemma PopulatedAuthor(p: PostRecord, gi: GhostInfo, s: Settings, parseIn: LayoutParser, k: nat)
    requires k < |gi.users| && gi.users[k].id == p.authorId
    requires forall j :: 0 <= j < k ==> gi.users[j].id != p.authorId
    ensures Populated(p, gi, s, parseIn).author == gi.users[k].name
  {
    LookupFirst(gi.users, p.authorId, k);
  }

  /** With no such user the author keeps whatever value decoding gave it. */
  lemma PopulatedAuthorUnknown(p: PostRecord, gi: GhostInfo, s: Settings, parseIn: LayoutParser)
    requires forall k :: 0 <= k < |gi.users| ==> gi.users[k].id != p.authorId
    ensures Populated(p, gi, s, parseIn).author == p.author
  {
    LookupMissing(gi.users, p.authorId);
  }

  /**
   * The tags are the decoded tags followed by at most one name per link of
   * the post, and every added name comes from a link of the post.
   */
  lemma PopulatedTags(p: PostRecord, gi: GhostInfo, s: Settings, parseIn: LayoutParser)
    ensures |p.tags| <= |Populated(p, gi, s, parseIn).tags| <= |p.tags| + CountLinks(gi.postTags, p.id)
    ensures Populated(p, gi, s, parseIn).tags[..|p.tags|] == p.tags
    ensures forall name :: name in Populated(p, gi, s, parseIn).tags[|p.tags|..] ==>
      exists k :: 0 <= k < |gi.postTags| && gi.postTags[k].postId == p.id
                  && Lookup(gi.tags, gi.postTags[k].tagId) == Some(name)
  {
    var added := LinkedTags(gi.postTags, gi.tags, p.id);
    LinkedTagsCount(gi.postTags, gi.tags, p.id);
    assert Populated(p, gi, s, parseIn).tags[|p.tags|..] == added;
    forall name | name in added
      ensures exists k :: 0 <= k < |gi.postTags| && gi.postTags[k].postId == p.id
                          && Lookup(gi.tags, gi.postTags[k].tagId) == Some(name)
    {
      LinkedTagsSound(gi.postTags, gi.tags, p.id, name);
    }
  }

  /**
   * The resolution example: users [1 "Ada"], tags [10 "go", 11 "infra"],
   * links of post 5 to tags 10 and 99; post 5 by author 1 gets author "Ada"
   * and the single tag "go" (the link to the unknown tag 99 adds nothing).
   */
  lemma ResolutionExample(p: PostRecord, s: Settings, parseIn: LayoutParser)
    requires p.id == 5 && p.authorId == 1 && p.tags == []
    ensures var gi := GhostInfo(Meta(0, ""), [Named(1, "Ada")], [Named(10, "go"), Named(11, "infra")],
                                [PostTag(1, 5, 10, 0), PostTag(2, 5, 99, 0)]);
      && Populated(p, gi, s, parseIn).author == "Ada"
      && Populated(p, gi, s, parseIn).tags == ["go"]
  {
    var tags := [Named(10, "go"), Named(11, "infra")];
    assert Lookup(tags, 10) == Some("go");
    assert Lookup(tags[1..], 99) == None;
    var links := [PostTag(1, 5, 10, 0), PostTag(2, 5, 99, 0)];
    assert links[1..][1..] == [];
    assert LinkedTags(links[1..], tags, 5) == [];
  }

  /** A post being populated in place (Go's `*Post`). */
  class Post {
    var id: int
    var title: string
    var slug: string
    var content: string
    var image: string
    var page: RawValue
    var status: string
    var metaDescription: string
    var authorId: int
    var publishedAt: RawValue
    var createdAt: RawValue
    var published: Time
    var created: Time
    var isDraft: bool
    var isPage: bool
    var author: string
    var tags: seq<string>

    /** The post's current fields as a value (what sending it on a channel copies). */
    function Value(): PostRecord
      reads this
    {
      PostRecord(id, title, slug, content, image, page, status, metaDescription, authorId,
                 publishedAt, createdAt, published, created, isDraft, isPage, author, tags)
    }

    /** A post as `Decode(&p)` leaves it. */
    constructor Decoded(r: PostRecord)
      ensures Value() == r
    {
      id, title, slug, content, image := r.id, r.title, r.slug, r.content, r.image;
      page, status, metaDescription, authorId := r.page, r.status, r.metaDescription, r.authorId;
      publishedAt, createdAt, published, created := r.publishedAt, r.createdAt, r.published, r.created;
      isDraft, isPage, author, tags := r.isDraft, r.isPage, r.author, r.tags;
    }

    /** `p.populate(gi, gth)`, with `s` the settings of `gth`. */
    method Populate(gi: GhostInfo, s: Settings, parseIn: LayoutParser)
      modifies this
      ensures Value() == Populated(old(Value()), gi, s, parseIn)
    {
      ghost var decoded := Value();
      published := ParseTime(s, publishedAt, parseIn);
      created := ParseTime(s, createdAt, parseIn);
      isDraft := status == "draft";
      isPage := ParseBool(page);
      ResolveAuthor(gi.users);
      AppendLinkedTags(gi.postTags, gi.tags);
      assert Value() == decoded.(published := published, created := created, isDraft := isDraft,
                                 isPage := isPage, author := author, tags := tags);
    }

    /** The author loop of `populate`: take the name of the first user with the post's author id. */
    method ResolveAuthor(users: seq<User>)
      modifies this`author
      ensures author == Lookup(users, authorId).GetOr(old(author))
    {
      var i := 0;
      while i < |users|
        invariant 0 <= i <= |users|
        invariant Lookup(users, authorId) == Lookup(users[i..], authorId)
        invariant author == old(author)
      {
        assert users[i..][1..] == users[i + 1..];
        if users[i].id == authorId {
          author := users[i].name;
          break;
        }
        i := i + 1;
      }
    }

    /**
     * The tag loops of `populate`: for each link of this post, in order,
     * append the name of the first tag with the linked id.
     */
    method AppendLinkedTags(links: seq<PostTag>, known: seq<Tag>)
      modifies this`tags
      ensures tags == old(tags) + LinkedTags(links, known, id)
    {
      var j := 0;
      while j < |links|
        invariant 0 <= j <= |links|
        invariant tags == old(tags) + LinkedTags(links[..j], known, id)
      {
        var pt := links[j];
        ghost var before := tags;
        if pt.postId == id {
          var k := 0;
          while k < |known|
            invariant 0 <= k <= |known|
            invariant Lookup(known, pt.tagId) == Lookup(known[k..], pt.tagId)
            invariant tags == before
          {
            assert known[k..][1..] == known[k + 1..];
            if known[k].id == pt.tagId {
              tags := tags + [known[k].name];
              break;
            }
            k := k + 1;
          }
        }
        assert tags == before + LinkTag(pt, known, id);
        LinkedTagsAppend(links[..j], [pt], known, id);
        assert links[..j + 1] == links[..j] + [pt];
        assert LinkedTags([pt], known, id) == LinkTag(pt, known, id);
        j := j + 1;
      }
      assert links[..j] == links;
    }
  }
}
