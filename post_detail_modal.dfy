/** `PostDetailModal` (src/components/PostDetailModal.tsx): the edit state
    of one gallery post, the platforms it is to go to, the record `Save`
    hands back, the carousel dots and the caption preview. */
module PostDetailModal {
  import opened Text
  import opened Seqs

  datatype Status = Scheduled | Draft | Posted

  datatype MediaKind = ImageItem | VideoItem

  /** `{ type, src }`, one slide of a carousel. */
  datatype CarouselItem = CarouselItem(kind: MediaKind, src: string)

  /** A gallery post; the optional fields are `None` where the record leaves
      them out. `mediaType`, `video` and `carouselImages` only select what
      is rendered and are not part of this model. */
  datatype ScheduledPost = ScheduledPost(
    id: string,
    title: string,
    caption: string,
    image: string,
    platform: string,
    scheduledDate: string,
    scheduledTime: string,
    status: Status,
    likes: Option<int>,
    likedBy: Option<string>,
    carouselItems: Option<seq<CarouselItem>>)

  /** The ids of the modal's `platforms` table, in order. */
  const PlatformIds: seq<string> := ["instagram", "rednote", "linkedin", "tiktok", "facebook", "twitter"]

  /** The modal's state hooks. */
  datatype Modal = Modal(
    caption: string,
    selectedPlatforms: seq<string>,
    scheduledDate: string,
    scheduledTime: string,
    customizeEnabled: bool,
    isPlaying: bool,
    carouselIndex: int)

  /** The state the modal opens with: the post's own caption, date and time,
      and its one platform, lower-cased, as the only selection. */
  function Open(post: ScheduledPost): (r: Modal)
    ensures r.selectedPlatforms == [ToLower(post.platform)]
    ensures r.caption == post.caption && r.scheduledDate == post.scheduledDate && r.scheduledTime == post.scheduledTime
    ensures r.customizeEnabled && !r.isPlaying && r.carouselIndex == 0
  {
    Modal(post.caption, [ToLower(post.platform)], post.scheduledDate, post.scheduledTime, true, false, 0)
  }

  /** The platform names the gallery's posts use lower-case to ids of the
      table, so the initial selection is one of the listed platforms. */
  lemma GalleryPlatformsListed(post: ScheduledPost)
    requires post.platform in ["Instagram", "RedNote", "LinkedIn", "TikTok"]
    ensures Open(post).selectedPlatforms[0] in PlatformIds
  {
    var p := post.platform;
    if p == "Instagram" {
      assert ToLower(p) == "instagram";
    } else if p == "RedNote" {
      assert ToLower(p) == "rednote";
    } else if p == "LinkedIn" {
      assert ToLower(p) == "linkedin";
    } else {
      assert ToLower(p) == "tiktok";
    }
  }

  predicate NoDuplicates(ids: seq<string>) {
    forall i, j | 0 <= i < j < |ids| :: ids[i] != ids[j]
  }

  /** `(p) => p !== id`. */
  function Differs(id: string): string -> bool {
    p => p != id
  }

  /** `prev.filter((p) => p !== id)`. */
  function RemoveAll(prev: seq<string>, id: string): seq<string> {
    Filter(prev, Differs(id))
  }

  /** The ids left are those of the list other than `id`. */
  lemma RemoveAllMembers(prev: seq<string>, id: string)
    ensures forall x :: x in RemoveAll(prev, id) <==> x in prev && x != id
  {
    FilterKept(prev, Differs(id));
    forall x | x in prev && x != id ensures x in RemoveAll(prev, id) {
      FilterCount(prev, Differs(id), x);
    }
  }

  /** Removing an id that is not there changes nothing. */
  lemma RemoveAbsent(prev: seq<string>, id: string)
    requires id !in prev
    ensures RemoveAll(prev, id) == prev
  {
    FilterAll(prev, Differs(id));
  }

  lemma {:induction false} RemoveAllKeepsNoDuplicates(prev: seq<string>, id: string)
    requires NoDuplicates(prev)
    ensures NoDuplicates(RemoveAll(prev, id))
    decreases |prev|
  {
    if prev != [] {
      var rest := prev[1..];
      assert NoDuplicates(rest) by {
        forall i, j | 0 <= i < j < |rest| ensures rest[i] != rest[j] {
          assert rest[i] == prev[i + 1] && rest[j] == prev[j + 1];
        }
      }
      RemoveAllKeepsNoDuplicates(rest, id);
      var tail := RemoveAll(rest, id);
      RemoveAllMembers(rest, id);
      assert RemoveAll(prev, id) == (if prev[0] != id then [prev[0]] else []) + tail;
      if prev[0] != id {
        assert prev[0] !in rest;
        assert prev[0] !in tail;
        var r := [prev[0]] + tail;
        forall i, j | 0 <= i < j < |r| ensures r[i] != r[j] {
          if i == 0 {
            assert r[j] in tail;
          } else {
            assert r[i] == tail[i - 1] && r[j] == tail[j - 1];
          }
        }
      } else {
        assert [] + tail == tail;
      }
    }
  }

  /** `togglePlatform(id)`. */
  function TogglePlatform(prev: seq<string>, id: string): seq<string> {
    if id in prev then RemoveAll(prev, id) else prev + [id]
  }

  /** Toggling flips the id's membership: a selected id loses every
      occurrence, an unselected one is appended at the end. */
  lemma ToggleFlipsMembership(prev: seq<string>, id: string)
    ensures id in TogglePlatform(prev, id) <==> id !in prev
    ensures id in prev ==> TogglePlatform(prev, id) == RemoveAll(prev, id)
    ensures id !in prev ==> TogglePlatform(prev, id) == prev + [id]
  {
    RemoveAllMembers(prev, id);
  }

  /** The other ids keep their membership and their order: leaving out the
      toggled id, the list before and after is the same. */
  lemma ToggleKeepsOthers(prev: seq<string>, id: string)
    ensures RemoveAll(TogglePlatform(prev, id), id) == RemoveAll(prev, id)
    ensures forall x | x != id :: x in TogglePlatform(prev, id) <==> x in prev
  {
    RemoveAllMembers(prev, id);
    if id in prev {
      RemoveAbsent(RemoveAll(prev, id), id);
    } else {
      FilterAppend(prev, [id], Differs(id));
      assert RemoveAll([id], id) == [];
      assert RemoveAll(prev, id) + [] == RemoveAll(prev, id);
    }
  }

  /** A selection without repeated ids keeps none after a toggle. */
  lemma ToggleKeepsNoDuplicates(prev: seq<string>, id: string)
    requires NoDuplicates(prev)
    ensures NoDuplicates(TogglePlatform(prev, id))
  {
    if id in prev {
      RemoveAllKeepsNoDuplicates(prev, id);
    } else {
      var r := prev + [id];
      forall i, j | 0 <= i < j < |r| ensures r[i] != r[j] {
        if j == |prev| {
          assert r[i] in prev;
        } else {
          assert r[i] == prev[i] && r[j] == prev[j];
        }
      }
    }
  }

  /** Selecting an id and deselecting it again gives back the list. */
  lemma ToggleTwiceFromAbsent(prev: seq<string>, id: string)
    requires id !in prev
    ensures TogglePlatform(TogglePlatform(prev, id), id) == prev
  {
    FilterAppend(prev, [id], Differs(id));
    RemoveAbsent(prev, id);
    assert RemoveAll([id], id) == [];
    assert prev + [] == prev;
  }

  /** `handleSave`: the record passed to `onUpdate` is the post with the
      edited caption, date and time; everything else, and in particular
      the platform, is the post's own. */
  function Save(post: ScheduledPost, m: Modal): (r: ScheduledPost)
    ensures r.caption == m.caption && r.scheduledDate == m.scheduledDate && r.scheduledTime == m.scheduledTime
    ensures r.id == post.id && r.title == post.title && r.image == post.image && r.platform == post.platform
    ensures r.status == post.status && r.likes == post.likes && r.likedBy == post.likedBy
    ensures r.carouselItems == post.carouselItems
  {
    post.(caption := m.caption, scheduledDate := m.scheduledDate, scheduledTime := m.scheduledTime)
  }

  /** The platform selection does not reach the saved record. */
  lemma SaveIgnoresSelection(post: ScheduledPost, m: Modal, ids: seq<string>)
    ensures Save(post, m.(selectedPlatforms := ids)) == Save(post, m)
  {
  }

  /** Saving straight after opening hands back the post unchanged. */
  lemma SaveUnedited(post: ScheduledPost)
    ensures Save(post, Open(post)) == post
  {
  }

  /** Clicking the dot at position `idx` of the carousel: that slide is
      shown and playback is marked stopped; nothing else changes. */
  function SelectDot(m: Modal, items: seq<CarouselItem>, idx: int): (r: Modal)
    requires 0 <= idx < |items|
    ensures r.carouselIndex == idx && 0 <= r.carouselIndex < |items|
    ensures !r.isPlaying
    ensures r.(carouselIndex := m.carouselIndex, isPlaying := m.isPlaying) == m
  {
    m.(carouselIndex := idx, isPlaying := false)
  }

  /** Clicking the dot at position `idx` of a carousel of plain images:
      that image is shown; playback is not touched. */
  function SelectImageDot(m: Modal, images: seq<string>, idx: int): (r: Modal)
    requires 0 <= idx < |images|
    ensures r.carouselIndex == idx && 0 <= r.carouselIndex < |images|
    ensures r.(carouselIndex := m.carouselIndex) == m
  {
    m.(carouselIndex := idx)
  }

  /** `caption.split("\n")[0]`: the caption up to its first line break,
      or all of it when it has none. */
  function CaptionPreview(caption: string): (r: string)
    ensures '\n' !in r
    ensures |r| <= |caption| && caption[..|r|] == r
    ensures |r| < |caption| ==> caption[|r|] == '\n'
  {
    SplitFirstPiece(caption, '\n');
    Split(caption, '\n')[0]
  }

  /** `line => line.startsWith("#")`. */
  predicate IsHashtagLine(line: string) {
    StartsWith(line, "#")
  }

  /** The caption's lines that start with `#`, in order. */
  function HashtagLines(lines: seq<string>): seq<string> {
    Filter(lines, IsHashtagLine)
  }

  /** The hashtag line under the preview: the caption's lines that start
      with `#`, in order, joined by single spaces. */
  function HashtagLine(caption: string): string {
    Join(HashtagLines(Split(caption, '\n')), " ")
  }

  /** For every caption, the hashtag line is made of lines of the caption:
      each starts with `#` and holds no line break, and each line of the
      caption that starts with `#` is kept as often as it occurs, while no
      other line is kept. */
  lemma HashtagLinesOfCaption(caption: string)
    ensures var lines := Split(caption, '\n');
      HashtagLine(caption) == Join(HashtagLines(lines), " ") &&
      (forall l | l in HashtagLines(lines) :: StartsWith(l, "#") && l in lines && '\n' !in l) &&
      (forall l | l in lines :: multiset(HashtagLines(lines))[l] == if StartsWith(l, "#") then multiset(lines)[l] else 0)
  {
    var lines := Split(caption, '\n');
    FilterKept(lines, IsHashtagLine);
    SplitPiecesFree(caption, '\n');
    forall l | l in lines
      ensures multiset(HashtagLines(lines))[l] == if StartsWith(l, "#") then multiset(lines)[l] else 0
    {
      FilterCount(lines, IsHashtagLine, l);
    }
  }

  lemma JoinThreeLines(first: string, tags: string)
    ensures Join([first, "", tags], "\n") == first + "\n\n" + tags
  {
    JoinCons(first, ["", tags], "\n");
    JoinCons("", [tags], "\n");
    assert Join([tags], "\n") == tags;
  }

  lemma HashtagLinesOfThree(first: string, tags: string)
    requires !StartsWith(first, "#") && StartsWith(tags, "#")
    ensures HashtagLines([first, "", tags]) == [tags]
  {
    var parts := [first, "", tags];
    assert parts[1..] == ["", tags];
    assert parts[1..][1..] == [tags];
    assert [tags][1..] == [];
    assert HashtagLines([tags]) == [tags];
    assert !StartsWith("", "#");
    assert HashtagLines(["", tags]) == [tags];
  }

  /** The captions of the gallery's posts are a sentence, an empty line and
      a line of hashtags: the preview shows the sentence and the hashtag
      line shows the hashtags. */
  lemma SentenceThenHashtags(first: string, tags: string)
    requires '\n' !in first && '\n' !in tags
    requires !StartsWith(first, "#") && StartsWith(tags, "#")
    ensures CaptionPreview(first + "\n\n" + tags) == first
    ensures HashtagLine(first + "\n\n" + tags) == tags
  {
    var caption := first + "\n\n" + tags;
    var parts := [first, "", tags];
    JoinThreeLines(first, tags);
    SplitJoin(parts, '\n');
    assert Split(caption, '\n') == parts;
    HashtagLinesOfThree(first, tags);
  }
}
