/**
 * The community feed (components/Community.tsx): the user's stored posts merged
 * with two seed posts on mount, posting (prepend, persisted), and liking (view only).
 */
module Community {
  import opened Types
  import opened Text
  import opened Storage

  /**
   * The two seed posts every feed ends with. The first one's text keeps the four characters
   * U+00F0 U+0178 U+0152 U+00BF that stand in the component's file where an emoji was meant.
   */
  const SeedPosts: seq<Post> := [
    Post("d1", "Sarah J.", "Just launched my MVP for the AI plant waterer! \U{00F0}\U{0178}\U{0152}\U{00BF} Check it out.",
         ["Launch", "MVP"], 24, "2h ago"),
    Post("d2", "Mike Ross", "Looking for a co-founder with React Native experience. DM me!",
         ["CoFounder", "Hiring"], 12, "5h ago")
  ]

  /** The feed on mount: the stored posts, then the seed posts. */
  function MountFeed(stored: seq<Post>): (feed: seq<Post>)
    ensures |feed| == |stored| + 2
    ensures feed[..|stored|] == stored
    ensures feed[|stored|].id == "d1" && feed[|stored| + 1].id == "d2"
  {
    stored + SeedPosts
  }

  /** A new post by `author`: tagged General, no likes, stamped "Just now". */
  function NewPost(id: string, author: string, content: string): (p: Post)
    ensures p.author == author && p.content == content
    ensures p.tags == ["General"] && p.likes == 0 && p.timestamp == "Just now"
  {
    Post(id, author, content, ["General"], 0, "Just now")
  }

  /** `posts.map(p => p.id === id ? { ...p, likes: p.likes + 1 } : p)` */
  function Liked(ps: seq<Post>, id: string): (r: seq<Post>)
    ensures |r| == |ps|
    ensures forall i :: 0 <= i < |ps| ==> r[i] == if ps[i].id == id then ps[i].(likes := ps[i].likes + 1) else ps[i]
  {
    if ps == [] then [] else
      [if ps[0].id == id then ps[0].(likes := ps[0].likes + 1) else ps[0]] + Liked(ps[1..], id)
  }

  /** Liking an id no post has changes nothing. */
  lemma {:induction false} LikeAbsentIsNoOp(ps: seq<Post>, id: string)
    requires forall i :: 0 <= i < |ps| ==> ps[i].id != id
    ensures Liked(ps, id) == ps
  {
    if ps != [] {
      LikeAbsentIsNoOp(ps[1..], id);
    }
  }

  /** A saved post survives a remount: the new feed is the post, then the feed as it was. */
  lemma PostThenRemount(m: map<string, Value>, email: string, p: Post)
    requires WellTyped(m)
    ensures MountFeed(PostsOf(WithPosts(m, email, [p] + PostsOf(m, email)), email)) == [p] + MountFeed(PostsOf(m, email))
  {
    SavePostsThenRead(m, email, [p] + PostsOf(m, email));
  }

  /** The feed view over the shared store. */
  class CommunityView {
    const user: User
    const store: Store
    var posts: seq<Post>
    var newPostContent: string

    ghost predicate Valid()
      reads this, store
    {
      store.Valid()
    }

    /** Mounting shows the stored posts followed by the seed posts. */
    constructor (user: User, store: Store)
      requires store.Valid()
      ensures Valid() && this.user == user && this.store == store
      ensures posts == MountFeed(PostsOf(store.entries, user.email)) && newPostContent == ""
    {
      this.user := user;
      this.store := store;
      new;
      var stored := store.GetUserPosts(user.email);
      posts := MountFeed(stored);
      newPostContent := "";
    }

    /**
     * `handlePost`: blank content is ignored; otherwise the new post is put first in the
     * list re-read from storage, which is saved, and first in the feed.
     */
    method SubmitPost(id: string)
      requires Valid()
      modifies this, store
      ensures Valid()
      ensures IsBlank(old(newPostContent)) ==> posts == old(posts) && newPostContent == old(newPostContent) && store.entries == old(store.entries)
      ensures !IsBlank(old(newPostContent)) ==>
        var p := NewPost(id, user.name, old(newPostContent));
        && posts == [p] + old(posts)
        && store.entries == WithPosts(old(store.entries), user.email, [p] + PostsOf(old(store.entries), user.email))
        && PostsOf(store.entries, user.email) == [p] + PostsOf(old(store.entries), user.email)
        && newPostContent == ""
    {
      if IsBlank(newPostContent) {
        return;
      }
      var p := NewPost(id, user.name, newPostContent);
      var stored := store.GetUserPosts(user.email);
      var updated := [p] + stored;
      store.SaveUserPosts(user.email, updated);
      SavePostsThenRead(old(store.entries), user.email, updated);
      posts := [p] + posts;
      newPostContent := "";
    }

    /** `handleLike(id)`: only the view changes; nothing is written to storage. */
    method Like(id: string)
      modifies this
      ensures posts == Liked(old(posts), id)
      ensures newPostContent == old(newPostContent)
    {
      posts := Liked(posts, id);
    }
  }
}
