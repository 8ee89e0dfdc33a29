/** `PostsProvider` (src/contexts/PostsContext.tsx): the shared list of
    posts, seeded with twelve sample posts, and `addPost`, which puts a new
    post in front. */
module PostsContext {
  import opened Text

  datatype PostStatus = Scheduled | Suggested | Draft | Posted

  datatype MediaType = Image | Video

  /** `{ name }`, one platform a post goes to. */
  datatype Platform = Platform(name: string)

  /** A post. `media` is the path of the image asset; the optional fields
      are `None` where the record leaves them out. */
  datatype Post = Post(
    id: string,
    platforms: seq<Platform>,
    media: string,
    mediaType: MediaType,
    hasCarousel: Option<bool>,
    status: PostStatus,
    scheduledDate: Option<string>,
    scheduledTime: Option<string>,
    title: string,
    caption: string)

  /** `initialPosts`. */
  const InitialPosts: seq<Post> := [
    Post("1", [Platform("Instagram"), Platform("RedNote")], "leather-handbag.png", Image, None, Scheduled,
         Some("Wed, Jan 7"), Some("7:15 PM"), "Leather Tote La...", "Introducing our signature tote in bu..."),
    Post("2", [Platform("RedNote")], "cashmere-turtleneck.jpg", Image, Some(true), Scheduled,
         Some("Thu, Jan 8"), Some("8:30 PM"), "羊绒高领系列", "「优雅，永恒，自信。」全新羊绒系..."),
    Post("3", [Platform("Instagram")], "leather-belt.png", Image, Some(true), Suggested,
         Some("Thu, Jan 8"), Some("12:00 PM"), "Behind the Cra...", "Every stitch tells a story. Discover th..."),
    Post("4", [Platform("Instagram")], "navy-overcoat.jpg", Image, None, Draft,
         Some("Sat, Jan 10"), Some("6:00 PM"), "Navy Overcoat...", "Tailored precision meets timeless st..."),
    Post("5", [Platform("Instagram"), Platform("Facebook")], "wrap-coat-model.jpg", Image, None, Posted,
         None, None, "Camel Wrap Coat", "Parisian elegance in every detail..."),
    Post("6", [Platform("RedNote"), Platform("TikTok")], "model-silk-blouse.jpg", Image, None, Posted,
         None, None, "丝绸衬衫系列", "经典丝绸衬衫 🤍 优雅系列正式..."),
    Post("7", [Platform("Instagram")], "silk-scarf.png", Image, None, Scheduled,
         Some("Thu, Jan 9"), Some("3:00 PM"), "Silk Print Edit...", "The art of draping. Our silk collectio..."),
    Post("8", [Platform("RedNote")], "leather-crossbody.jpg", Image, None, Draft,
         Some("Fri, Jan 10"), Some("11:00 AM"), "斜挎包搭配指南", "精致细节，尽显品味..."),
    Post("9", [Platform("Instagram"), Platform("Facebook")], "model-wool-blazer.jpg", Image, None, Posted,
         None, None, "Blazer Editorial", "Handcrafted tailoring. Our wool blaz..."),
    Post("10", [Platform("TikTok")], "camel-coat.jpg", Image, None, Posted,
         None, None, "Camel Coat GRWM", "The ultimate outerwear staple. Get r..."),
    Post("11", [Platform("Instagram"), Platform("RedNote")], "wool-trousers.jpg", Image, None, Scheduled,
         Some("Fri, Jan 10"), Some("2:00 PM"), "Wool Trousers...", "Timeless elegance meets modern cr..."),
    Post("12", [Platform("RedNote")], "leather-loafers.png", Image, None, Scheduled,
         Some("Sat, Jan 11"), Some("6:00 PM"), "经典乐福鞋", "手工制作，品质之选 👞...")
  ]

  /** The state `useState(initialPosts)` starts with: twelve posts with the
      ids "1" to "12" in that order, so that no id is repeated. */
  function InitialState(): (r: seq<Post>)
    ensures |r| == 12
    ensures forall i | 0 <= i < |r| :: r[i].id == ShowNat(i + 1)
    ensures forall i, j | 0 <= i < j < |r| :: r[i].id != r[j].id
  {
    IdsAreCounts();
    CountedIdsDistinct(InitialPosts);
    InitialPosts
  }

  /** Posts numbered from 1 in order have distinct ids: the decimal texts of
      distinct numbers differ, since each reads back as its own number. */
  lemma CountedIdsDistinct(r: seq<Post>)
    requires forall i | 0 <= i < |r| :: r[i].id == ShowNat(i + 1)
    ensures forall i, j | 0 <= i < j < |r| :: r[i].id != r[j].id
  {
    forall i, j | 0 <= i < j < |r| ensures r[i].id != r[j].id {
      if r[i].id == r[j].id {
        ShowNatInjective(i + 1, j + 1);
      }
    }
  }

  lemma IdsAreCounts()
    ensures forall i | 0 <= i < |InitialPosts| :: InitialPosts[i].id == ShowNat(i + 1)
  {
    assert ShowNat(10) == "10" && ShowNat(11) == "11" && ShowNat(12) == "12";
  }

  /** `addPost(post)`: the new post comes first and the previous list
      follows it unchanged. */
  function AddPost(prev: seq<Post>, post: Post): (r: seq<Post>)
    ensures |r| == |prev| + 1
    ensures r[0] == post
    ensures r[1..] == prev
  {
    [post] + prev
  }

  /** Adding several posts one after the other puts them in front in the
      reverse order of adding: the last one added is first. */
  function AddAll(prev: seq<Post>, added: seq<Post>): seq<Post>
    decreases |added|
  {
    if added == [] then prev else AddAll(AddPost(prev, added[0]), added[1..])
  }

  function Reversed(s: seq<Post>): (r: seq<Post>)
    ensures |r| == |s|
    ensures forall i | 0 <= i < |s| :: r[i] == s[|s| - 1 - i]
  {
    seq(|s|, i requires 0 <= i < |s| => s[|s| - 1 - i])
  }

  lemma {:induction false} AddAllPrepends(prev: seq<Post>, added: seq<Post>)
    ensures AddAll(prev, added) == Reversed(added) + prev
    decreases |added|
  {
    if added == [] {
      assert Reversed(added) + prev == prev;
    } else {
      var rest := added[1..];
      AddAllPrepends([added[0]] + prev, rest);
      assert Reversed(rest) + ([added[0]] + prev) == Reversed(added) + prev by {
        assert Reversed(rest) + [added[0]] == Reversed(added);
      }
    }
  }
}
