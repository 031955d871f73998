/** Posts in a community feed: the like button of a post card, the form
    that creates a post, and the feed that receives it. */
module Posts {
  import opened Wrappers
  import opened Text

  datatype Author = Author(name: string, avatar: Option<string>, initials: string)

  datatype Post = Post(
    id: int,
    author: Author,
    content: string,
    createdAt: string,
    likes: int,
    comments: int,
    liked: Option<bool>)

  // ---------------------------------------------------------------- post card

  /** A rendered post card: its properties and its own like state. */
  datatype Card = Card(post: Post, isLiked: bool, likeCount: int)

  function Indicator(b: bool): int {
    if b then 1 else 0
  }

  /** The like count the post has apart from the viewer's own like. */
  function OthersLikes(c: Card): int {
    c.likeCount - Indicator(c.isLiked)
  }

  /** The card as first rendered: `liked` defaults to false. */
  function InitialCard(post: Post): (c: Card)
    ensures c.post == post && c.likeCount == post.likes
    ensures c.isLiked == (post.liked == Some(true))
  {
    Card(post, post.liked.GetOr(false), post.likes)
  }

  /** `handleLike`: flip the viewer's like and move the count with it. */
  function HandleLike(c: Card): (r: Card)
    ensures r.isLiked == !c.isLiked
    ensures OthersLikes(r) == OthersLikes(c)
    ensures r.post == c.post
  {
    if c.isLiked then c.(likeCount := c.likeCount - 1, isLiked := false)
    else c.(likeCount := c.likeCount + 1, isLiked := true)
  }

  /** Liking adds one, unliking takes one away. */
  lemma LikeMovesCountByOne(c: Card)
    ensures !c.isLiked ==> HandleLike(c).likeCount == c.likeCount + 1 && HandleLike(c).isLiked
    ensures c.isLiked ==> HandleLike(c).likeCount == c.likeCount - 1 && !HandleLike(c).isLiked
  {
  }

  /** Two clicks restore the card. */
  lemma LikeTwiceRestores(c: Card)
    ensures HandleLike(HandleLike(c)) == c
  {
  }

  /** The card after `n` clicks. */
  function Clicks(c: Card, n: nat): Card {
    if n == 0 then c else HandleLike(Clicks(c, n - 1))
  }

  /** However often the button is clicked, the count differs from the
      initial likes only by the viewer's own like, and the post, comment
      count included, never changes. */
  lemma {:induction false} ClicksKeepOthersLikes(post: Post, n: nat)
    ensures OthersLikes(Clicks(InitialCard(post), n)) == post.likes - Indicator(post.liked == Some(true))
    ensures Clicks(InitialCard(post), n).post == post
    ensures Clicks(InitialCard(post), n).isLiked == ((post.liked == Some(true)) != (n % 2 == 1))
  {
    if n > 0 {
      ClicksKeepOthersLikes(post, n - 1);
    }
  }

  // ----------------------------------------------------------- create post form

  /** `handleSubmit` of the post form: the content handed to the feed, if
      any, and the text left in the box. */
  datatype FormSubmit = FormSubmit(submitted: Option<string>, content: string)

  /** The Post button is disabled when `content.trim()` is empty. */
  function PostDisabled(content: string): (d: bool)
    ensures d <==> Blank(content)
  {
    TrimEmptyIffBlank(content);
    Trim(content) == []
  }

  function HandleSubmit(content: string): (r: FormSubmit)
    ensures r.submitted.Some? <==> !Blank(content)
    ensures r.submitted.Some? ==> r.submitted.value == content && r.content == ""
    ensures r.submitted.None? ==> r.content == content
  {
    TrimEmptyIffBlank(content);
    if Trim(content) != [] then FormSubmit(Some(content), "") else FormSubmit(None, content)
  }

  /** The form submits exactly when its button is enabled. */
  lemma SubmitIffEnabled(content: string)
    ensures HandleSubmit(content).submitted.Some? <==> !PostDisabled(content)
  {
  }

  // ----------------------------------------------------------------- post feed

  /** The post the feed creates for `content` at clock reading `now`. */
  function NewPost(content: string, now: int, createdAt: string): (p: Post)
    ensures p.content == content && p.likes == 0 && p.comments == 0 && p.liked == Some(false)
    ensures p.author == Author("You", None, "GU") && p.id == now
  {
    Post(now, Author("You", None, "GU"), content, createdAt, 0, 0, Some(false))
  }

  /** `handlePostSubmit`: the new post goes first, the others follow unchanged. */
  function HandlePostSubmit(posts: seq<Post>, content: string, now: int, createdAt: string): (r: seq<Post>)
    ensures |r| == |posts| + 1
    ensures r[0] == NewPost(content, now, createdAt)
    ensures forall k :: 0 <= k < |posts| ==> r[k + 1] == posts[k]
  {
    [NewPost(content, now, createdAt)] + posts
  }

  /** Every post in the feed has some non-blank content. */
  predicate NoBlankPosts(posts: seq<Post>) {
    forall k :: 0 <= k < |posts| ==> !Blank(posts[k].content)
  }

  /** The form wired to the feed: submit the text box, and prepend a post
      when the form hands content over. */
  function SubmitToFeed(posts: seq<Post>, content: string, now: int, createdAt: string): (r: (seq<Post>, string))
  {
    var f := HandleSubmit(content);
    match f.submitted
    case Some(text) => (HandlePostSubmit(posts, text, now, createdAt), f.content)
    case None => (posts, f.content)
  }

  /** Through the form no blank post enters the feed: the feed either stays
      as it was or gains one non-blank post in front. */
  lemma FormKeepsBlankPostsOut(posts: seq<Post>, content: string, now: int, createdAt: string)
    ensures var r := SubmitToFeed(posts, content, now, createdAt);
      || (r.0 == posts && r.1 == content && Blank(content))
      || (|r.0| == |posts| + 1 && r.0[1..] == posts && r.0[0].content == content && !Blank(content) && r.1 == "")
    ensures NoBlankPosts(posts) ==> NoBlankPosts(SubmitToFeed(posts, content, now, createdAt).0)
  {
    var r := SubmitToFeed(posts, content, now, createdAt);
    if !Blank(content) {
      assert r.0[1..] == posts;
    }
  }
}
