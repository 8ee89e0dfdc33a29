/** `EditPostModal` and its `ScheduleView` (src/components/EditPostModal.tsx):
    the list of platforms to share to, each with a `selected` flag, the
    label of the schedule button, and the time picker. */
module EditPostModal {
  import opened Text
  import opened PostsContext

  /** An entry of the fixed `platforms` table; the icon is left out. */
  datatype PlatformEntry = PlatformEntry(id: string, name: string)

  /** An entry of `selectedPlatforms`: the table entry and its flag. */
  datatype Choice = Choice(id: string, name: string, selected: bool)

  /** `platforms`. */
  const Platforms: seq<PlatformEntry> := [
    PlatformEntry("instagram", "INSTAGRAM"),
    PlatformEntry("facebook", "FACEBOOK"),
    PlatformEntry("twitter", "X (TWITTER)"),
    PlatformEntry("rednote", "XIAOHONGSHU"),
    PlatformEntry("linkedin", "LINKEDIN"),
    PlatformEntry("tiktok", "TIKTOK")
  ]

  /** `platforms.some(pp => pp.name.toLowerCase() === id)`. */
  function SomeNamed(platforms: seq<Platform>, id: string): (b: bool)
    decreases |platforms|
  {
    if platforms == [] then false
    else ToLower(platforms[0].name) == id || SomeNamed(platforms[1..], id)
  }

  lemma {:induction false} SomeNamedExists(platforms: seq<Platform>, id: string)
    ensures SomeNamed(platforms, id) <==> exists k | 0 <= k < |platforms| :: ToLower(platforms[k].name) == id
    decreases |platforms|
  {
    if platforms != [] {
      SomeNamedExists(platforms[1..], id);
      if SomeNamed(platforms[1..], id) {
        var k :| 0 <= k < |platforms[1..]| && ToLower(platforms[1..][k].name) == id;
        assert ToLower(platforms[k + 1].name) == id;
      }
      if exists k | 0 <= k < |platforms| :: ToLower(platforms[k].name) == id {
        var k :| 0 <= k < |platforms| && ToLower(platforms[k].name) == id;
        if k > 0 {
          assert ToLower(platforms[1..][k - 1].name) == id;
        }
      }
    }
  }

  /** The state `selectedPlatforms` starts with: the table, in its order,
      each entry selected exactly when one of the post's platform names,
      lower-cased, is its id. */
  function InitialSelection(post: Post): (r: seq<Choice>)
    ensures |r| == |Platforms|
    ensures forall i | 0 <= i < |r| :: r[i].id == Platforms[i].id && r[i].name == Platforms[i].name
    ensures forall i | 0 <= i < |r| ::
      r[i].selected <==> exists k | 0 <= k < |post.platforms| :: ToLower(post.platforms[k].name) == Platforms[i].id
  {
    var r := seq(|Platforms|, i requires 0 <= i < |Platforms| =>
      Choice(Platforms[i].id, Platforms[i].name, SomeNamed(post.platforms, Platforms[i].id)));
    forall i | 0 <= i < |r|
      ensures r[i].selected <==> exists k | 0 <= k < |post.platforms| :: ToLower(post.platforms[k].name) == Platforms[i].id
    {
      SomeNamedExists(post.platforms, Platforms[i].id);
    }
    r
  }

  /** A post going to "Instagram" and "RedNote", as the first sample post
      does, starts with `instagram` and `rednote` selected and nothing else. */
  lemma InstagramAndRedNoteSelection(post: Post)
    requires post.platforms == [Platform("Instagram"), Platform("RedNote")]
    ensures var r := InitialSelection(post);
      r[0].selected && !r[1].selected && !r[2].selected && r[3].selected && !r[4].selected && !r[5].selected
  {
    var r := InitialSelection(post);
    assert ToLower("Instagram") == "instagram";
    assert ToLower("RedNote") == "rednote";
    assert r[0].selected by {
      assert ToLower(post.platforms[0].name) == Platforms[0].id;
    }
    assert r[3].selected by {
      assert ToLower(post.platforms[1].name) == Platforms[3].id;
    }
  }

  /** `togglePlatform(id)`: the entries with that id have their flag flipped;
      the others are left as they were. */
  function Toggle(prev: seq<Choice>, id: string): (r: seq<Choice>)
    ensures |r| == |prev|
  {
    seq(|prev|, i requires 0 <= i < |prev| => if prev[i].id == id then prev[i].(selected := !prev[i].selected) else prev[i])
  }

  /** Toggling keeps the ids, names and order of the entries, flips the flag
      of the entries with the toggled id and keeps every other entry. */
  lemma ToggleFlips(prev: seq<Choice>, id: string)
    ensures var r := Toggle(prev, id);
      forall i | 0 <= i < |prev| ::
        r[i].id == prev[i].id && r[i].name == prev[i].name &&
        (prev[i].id == id ==> r[i].selected == !prev[i].selected) &&
        (prev[i].id != id ==> r[i] == prev[i])
  {
  }

  /** Toggling the same id twice gives back the list. */
  lemma ToggleTwice(prev: seq<Choice>, id: string)
    ensures Toggle(Toggle(prev, id), id) == prev
  {
    var r := Toggle(Toggle(prev, id), id);
    assert forall i | 0 <= i < |prev| :: r[i] == prev[i];
  }

  /** Toggling an id that no entry has changes nothing. */
  lemma ToggleUnknown(prev: seq<Choice>, id: string)
    requires forall i | 0 <= i < |prev| :: prev[i].id != id
    ensures Toggle(prev, id) == prev
  {
    var r := Toggle(prev, id);
    assert forall i | 0 <= i < |prev| :: r[i] == prev[i];
  }

  /** The ids of the selected entries. */
  function SelectedIds(choices: seq<Choice>): set<string> {
    set i | 0 <= i < |choices| && choices[i].selected :: choices[i].id
  }

  predicate DistinctIds(choices: seq<Choice>) {
    forall i, j | 0 <= i < j < |choices| :: choices[i].id != choices[j].id
  }

  /** The table's ids are distinct, so the selection list's are. */
  lemma InitialIdsDistinct(post: Post)
    ensures DistinctIds(InitialSelection(post))
  {
  }

  /** On a list with distinct ids, toggling an id that is there flips its
      membership in the set of selected ids and no other id's. */
  lemma ToggleFlipsMembership(prev: seq<Choice>, id: string, other: string)
    requires DistinctIds(prev)
    requires exists i | 0 <= i < |prev| :: prev[i].id == id
    ensures id in SelectedIds(Toggle(prev, id)) <==> id !in SelectedIds(prev)
    ensures other != id ==> (other in SelectedIds(Toggle(prev, id)) <==> other in SelectedIds(prev))
  {
    var r := Toggle(prev, id);
    var k :| 0 <= k < |prev| && prev[k].id == id;
    if id in SelectedIds(r) {
      var i :| 0 <= i < |r| && r[i].selected && r[i].id == id;
      assert i == k;
    }
    if id in SelectedIds(prev) {
      var i :| 0 <= i < |prev| && prev[i].selected && prev[i].id == id;
      assert i == k;
    }
    if !(id in SelectedIds(prev)) {
      assert r[k].selected;
    }
    if other != id {
      if other in SelectedIds(r) {
        var i :| 0 <= i < |r| && r[i].selected && r[i].id == other;
        assert prev[i] == r[i];
      }
      if other in SelectedIds(prev) {
        var i :| 0 <= i < |prev| && prev[i].selected && prev[i].id == other;
        assert prev[i] == r[i];
      }
    }
  }

  const DefaultDate := "Wed, Jan 7"
  const DefaultTime := "7:15 PM"

  /** `value || fallback` for an optional string: an absent or empty value
      gives the fallback. */
  function OrElse(value: Option<string>, fallback: string): (r: string)
    ensures value.Some? && value.value != "" ==> r == value.value
    ensures value.None? || value.value == "" ==> r == fallback
  {
    if value.Some? && value.value != "" then value.value else fallback
  }

  /** The label of the schedule button: the post's date and time, each
      replaced by its default when missing. */
  function ScheduleButtonLabel(post: Post): string {
    OrElse(post.scheduledDate, DefaultDate) + " • " + OrElse(post.scheduledTime, DefaultTime)
  }

  /** A post scheduled at a date and a time shows them on the button. */
  lemma ScheduledPostLabel(post: Post, date: string, time: string)
    requires post.scheduledDate == Some(date) && post.scheduledTime == Some(time)
    requires date != "" && time != ""
    ensures ScheduleButtonLabel(post) == date + " • " + time
  {
  }

  /** A post with neither a date nor a time, such as a posted one, shows
      the defaults. */
  lemma UnscheduledPostLabel(post: Post)
    requires post.scheduledDate.None? && post.scheduledTime.None?
    ensures ScheduleButtonLabel(post) == "Wed, Jan 7 • 7:15 PM"
  {
  }

  /** `timeOptions`. */
  const TimeOptions: seq<string> := [
    "6:00 AM", "6:30 AM", "7:00 AM", "7:30 AM", "8:00 AM", "8:30 AM", "9:00 AM", "9:30 AM",
    "10:00 AM", "10:30 AM", "11:00 AM", "11:30 AM", "12:00 PM", "12:30 PM", "1:00 PM", "1:30 PM",
    "2:00 PM", "2:30 PM", "3:00 PM", "3:30 PM", "4:00 PM", "4:30 PM", "5:00 PM", "5:30 PM",
    "6:00 PM", "6:30 PM", "7:00 PM", "7:15 PM", "7:30 PM", "8:00 PM", "8:30 PM", "9:00 PM", "9:30 PM", "10:00 PM"
  ]

  /** The time picker's state: `selectedTime` and `timeOpen`. */
  datatype TimePicker = TimePicker(selectedTime: string, timeOpen: bool)

  /** The state the schedule view starts with: the post's time, or the
      default when it has none, with the list closed. This is the time the
      schedule button shows. */
  function InitialTimePicker(post: Post): (r: TimePicker)
    ensures !r.timeOpen
    ensures post.scheduledTime.Some? && post.scheduledTime.value != "" ==> r.selectedTime == post.scheduledTime.value
    ensures post.scheduledTime.None? || post.scheduledTime.value == "" ==> r.selectedTime == DefaultTime
    ensures ScheduleButtonLabel(post) == OrElse(post.scheduledDate, DefaultDate) + " • " + r.selectedTime
  {
    TimePicker(OrElse(post.scheduledTime, DefaultTime), false)
  }

  /** Clicking the option at `index`: it becomes the selected time and the
      list closes. */
  function PickTime(p: TimePicker, index: int): (r: TimePicker)
    requires 0 <= index < |TimeOptions|
    ensures r.selectedTime == TimeOptions[index] && !r.timeOpen
  {
    p.(selectedTime := TimeOptions[index], timeOpen := false)
  }

  /** The default time is one of the options, the twenty-eighth, so a post
      without a time opens the picker on an option that is offered. */
  lemma DefaultTimeOffered()
    ensures |TimeOptions| == 34
    ensures TimeOptions[27] == DefaultTime
  {
  }
}
