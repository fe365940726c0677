/** The alert feed beside the video: an ordered list of at most five alerts,
    oldest first. Both controllers append a new alert and then drop the first
    one when the list has grown past five; the backend-driven controller also
    refuses an alert whose message is already visible in a displayed alert. */
module AlertFeed {

  datatype AlertKind = Info | Success | Warning | Danger

  /** A displayed alert. `id` stands for the identity of its DOM node, so that
      the delayed removal of an info alert removes that node and no other. */
  datatype Alert = Alert(id: nat, kind: AlertKind, message: string)

  /** An alert a controller asks to show, before it becomes a node. */
  datatype Notice = Notice(kind: AlertKind, message: string)

  const MaxAlerts: nat := 5

  // The messages the controllers show.
  const StartingMessage: string := "Starting drowsiness detection..."
  const StartedMessage: string := "Drowsiness detection started successfully!"
  const StartFailedMessage: string := "Failed to start detection. Please check camera permissions."
  const StoppedMessage: string := "Drowsiness detection stopped."
  const StopFailedMessage: string := "Error stopping detection."
  const StreamErrorMessage: string := "Error loading video stream"
  const DrowsyMessage: string := "Drowsiness detected! Please take a break."
  const YawnMessage: string := "Yawning detected. Consider taking a break."
  const SavedMessage: string := "Settings saved successfully!"
  const ResetMessage: string := "Settings reset to default values."

  // The whitespace of the markup template around the message: the node's
  // textContent is Lead + message + Trail (the icon element has no text).
  const Lead: string := "\n            \n            "
  const Trail: string := "\n        "

  function NodeText(a: Alert): string {
    Lead + a.message + Trail
  }

  /** `text` begins with `pattern`, compared character by character. */
  function StartsWith(text: string, pattern: string): bool
    decreases |pattern|
  {
    |pattern| == 0 || (|text| > 0 && text[0] == pattern[0] && StartsWith(text[1..], pattern[1..]))
  }

  /** JavaScript `text.includes(pattern)`, searched from the front. */
  function Includes(text: string, pattern: string): bool
    decreases |text|
  {
    StartsWith(text, pattern) || (|text| > 0 && Includes(text[1..], pattern))
  }

  lemma {:induction false} StartsWithIsPrefix(text: string, pattern: string)
    ensures StartsWith(text, pattern) <==> |pattern| <= |text| && text[..|pattern|] == pattern
    decreases |pattern|
  {
    if |pattern| > 0 && |text| > 0 {
      StartsWithIsPrefix(text[1..], pattern[1..]);
      if |pattern| <= |text| {
        assert text[..|pattern|] == [text[0]] + text[1..][..|pattern| - 1];
        assert pattern == [pattern[0]] + pattern[1..];
      }
    }
  }

  /** Reference definition of a substring: `pattern` sits at some offset of `text`. */
  ghost predicate OccursAt(text: string, pattern: string, k: int) {
    0 <= k && k + |pattern| <= |text| && text[k..k + |pattern|] == pattern
  }

  lemma {:induction false} IncludesIsSubstring(text: string, pattern: string)
    ensures Includes(text, pattern) <==> exists k :: OccursAt(text, pattern, k)
    decreases |text|
  {
    StartsWithIsPrefix(text, pattern);
    if StartsWith(text, pattern) {
      assert OccursAt(text, pattern, 0);
    } else if |text| == 0 {
      assert |pattern| > 0;
    } else {
      IncludesIsSubstring(text[1..], pattern);
      if k :| OccursAt(text[1..], pattern, k) {
        assert text[k + 1..k + 1 + |pattern|] == text[1..][k..k + |pattern|];
        assert OccursAt(text, pattern, k + 1);
      }
      if k :| OccursAt(text, pattern, k) {
        assert k != 0;
        assert text[1..][k - 1..k - 1 + |pattern|] == text[k..k + |pattern|];
        assert OccursAt(text[1..], pattern, k - 1);
      }
    }
  }

  /** Every alert's node text contains its own message. */
  lemma TextIncludesMessage(a: Alert)
    ensures Includes(NodeText(a), a.message)
  {
    var t := NodeText(a);
    assert t[|Lead|..|Lead| + |a.message|] == a.message;
    assert OccursAt(t, a.message, |Lead|);
    IncludesIsSubstring(t, a.message);
  }

  /** Some displayed alert's text already contains `message`. */
  predicate Shown(feed: seq<Alert>, message: string) {
    exists i :: 0 <= i < |feed| && Includes(NodeText(feed[i]), message)
  }

  /** The new alert goes last; if the list has grown past five, the first
      (oldest) alert is dropped. */
  function Append(feed: seq<Alert>, a: Alert): seq<Alert> {
    var grown := feed + [a];
    if |grown| > MaxAlerts then grown[1..] else grown
  }

  /** The new alert is the last one shown; the list grows by one until it
      holds five, and never holds more than five once it does not. */
  lemma AppendShape(feed: seq<Alert>, a: Alert)
    ensures var r := Append(feed, a);
      && |r| == (if |feed| < MaxAlerts then |feed| + 1 else |feed|)
      && r[|r| - 1] == a
      && (|feed| <= MaxAlerts ==> |r| <= MaxAlerts)
  {
  }

  /** The alerts kept beside the new one are the newest of the old ones, in
      their old order: on overflow exactly the first is gone. */
  lemma AppendKeepsOrder(feed: seq<Alert>, a: Alert)
    ensures var r := Append(feed, a);
      forall i :: 0 <= i < |r| - 1 ==> r[i] == feed[|feed| + 1 - |r| + i]
  {
  }

  /** The backend-driven controller's addAlert: nothing changes when the
      message is already visible, otherwise Append. */
  function AppendUnlessShown(feed: seq<Alert>, a: Alert): seq<Alert> {
    if Shown(feed, a.message) then feed else Append(feed, a)
  }

  /** Notices appended one after the other, numbered from `id` on. */
  function AppendAll(feed: seq<Alert>, id: nat, ns: seq<Notice>): seq<Alert>
    decreases |ns|
  {
    if ns == [] then feed
    else
      var last := ns[|ns| - 1];
      Append(AppendAll(feed, id, ns[..|ns| - 1]), Alert(id + |ns| - 1, last.kind, last.message))
  }

  /** The expiry of an info alert: its node is removed if it is still there. */
  function Remove(feed: seq<Alert>, id: nat): (r: seq<Alert>)
    ensures |r| <= |feed|
  {
    if feed == [] then []
    else (if feed[0].id == id then [] else [feed[0]]) + Remove(feed[1..], id)
  }

  /** Removal keeps exactly the alerts with another id. */
  lemma {:induction false} RemoveMembers(feed: seq<Alert>, id: nat)
    ensures forall a :: a in Remove(feed, id) <==> a in feed && a.id != id
    decreases |feed|
  {
    if feed != [] {
      RemoveMembers(feed[1..], id);
      assert feed == [feed[0]] + feed[1..];
    }
  }

  /** Alert ids grow from the oldest to the newest and stay below `next`. */
  ghost predicate IdsBelow(feed: seq<Alert>, next: nat) {
    (forall i, j :: 0 <= i < j < |feed| ==> feed[i].id < feed[j].id) &&
    (forall i :: 0 <= i < |feed| ==> feed[i].id < next)
  }

  /** No displayed alert's message is visible in an older alert's text: what
      the duplicate check of AppendUnlessShown keeps true. */
  ghost predicate NoRepeats(feed: seq<Alert>) {
    forall i, j :: 0 <= i < j < |feed| ==> !Includes(NodeText(feed[i]), feed[j].message)
  }

  lemma AppendKeepsIds(feed: seq<Alert>, next: nat, kind: AlertKind, message: string)
    requires IdsBelow(feed, next)
    ensures IdsBelow(Append(feed, Alert(next, kind, message)), next + 1)
    ensures |feed| <= MaxAlerts ==> |Append(feed, Alert(next, kind, message))| <= MaxAlerts
  {
    var a := Alert(next, kind, message);
    AppendKeepsOrder(feed, a);
    AppendShape(feed, a);
  }

  lemma {:induction false} AppendAllKeepsIds(feed: seq<Alert>, next: nat, ns: seq<Notice>)
    requires IdsBelow(feed, next)
    ensures IdsBelow(AppendAll(feed, next, ns), next + |ns|)
    ensures |feed| <= MaxAlerts ==> |AppendAll(feed, next, ns)| <= MaxAlerts
    decreases |ns|
  {
    if ns != [] {
      var last := ns[|ns| - 1];
      var before := AppendAll(feed, next, ns[..|ns| - 1]);
      AppendAllKeepsIds(feed, next, ns[..|ns| - 1]);
      AppendKeepsIds(before, next + |ns| - 1, last.kind, last.message);
      assert AppendAll(feed, next, ns) == Append(before, Alert(next + |ns| - 1, last.kind, last.message));
    }
  }

  /** One more notice at the end of a batch is one more Append. */
  lemma AppendAllSnoc(feed: seq<Alert>, id: nat, ns: seq<Notice>, x: Notice)
    ensures AppendAll(feed, id, ns + [x]) == Append(AppendAll(feed, id, ns), Alert(id + |ns|, x.kind, x.message))
  {
    var zs := ns + [x];
    assert zs[..|zs| - 1] == ns;
    assert zs[|zs| - 1] == x;
  }

  /** A batch that starts with `x` is `x` appended, then the rest. */
  lemma AppendAllCons(feed: seq<Alert>, id: nat, x: Notice, ns: seq<Notice>)
    ensures AppendAll(feed, id, [x] + ns) == AppendAll(Append(feed, Alert(id, x.kind, x.message)), id + 1, ns)
  {
    AppendAllConcat(feed, id, [x], ns);
    AppendAllSnoc(feed, id, [], x);
    assert [] + [x] == [x];
  }

  /** Appending two batches one after the other is appending their concatenation. */
  lemma {:induction false} AppendAllConcat(feed: seq<Alert>, id: nat, xs: seq<Notice>, ys: seq<Notice>)
    ensures AppendAll(AppendAll(feed, id, xs), id + |xs|, ys) == AppendAll(feed, id, xs + ys)
    decreases |ys|
  {
    if ys == [] {
      assert xs + ys == xs;
    } else {
      var init, last := ys[..|ys| - 1], ys[|ys| - 1];
      assert ys == init + [last];
      assert xs + ys == (xs + init) + [last];
      AppendAllConcat(feed, id, xs, init);
      AppendAllSnoc(AppendAll(feed, id, xs), id + |xs|, init, last);
      AppendAllSnoc(feed, id, xs + init, last);
    }
  }

  lemma AppendUnlessShownKeepsInvariants(feed: seq<Alert>, next: nat, kind: AlertKind, message: string)
    requires IdsBelow(feed, next) && NoRepeats(feed)
    ensures IdsBelow(AppendUnlessShown(feed, Alert(next, kind, message)), next + 1)
    ensures NoRepeats(AppendUnlessShown(feed, Alert(next, kind, message)))
    ensures |feed| <= MaxAlerts ==> |AppendUnlessShown(feed, Alert(next, kind, message))| <= MaxAlerts
  {
    var a := Alert(next, kind, message);
    if !Shown(feed, message) {
      AppendKeepsIds(feed, next, kind, message);
      AppendKeepsOrder(feed, a);
      AppendShape(feed, a);
    }
  }

  /** The duplicate check at work: no two displayed alerts carry the same message. */
  lemma NoRepeatsMeansDistinctMessages(feed: seq<Alert>, i: nat, j: nat)
    requires NoRepeats(feed)
    requires i < j < |feed|
    ensures feed[i].message != feed[j].message
  {
    TextIncludesMessage(feed[i]);
  }

  lemma {:induction false} RemoveKeepsIds(feed: seq<Alert>, id: nat, next: nat)
    requires IdsBelow(feed, next)
    ensures IdsBelow(Remove(feed, id), next)
    decreases |feed|
  {
    if feed != [] {
      assert IdsBelow(feed[1..], next);
      RemoveKeepsIds(feed[1..], id, next);
      var rest := Remove(feed[1..], id);
      if feed[0].id != id {
        RemoveMembers(feed[1..], id);
        var r := [feed[0]] + rest;
        assert Remove(feed, id) == r;
        forall i, j | 0 <= i < j < |r| ensures r[i].id < r[j].id {
          if i == 0 {
            assert r[j] == rest[j - 1] && rest[j - 1] in feed[1..];
          } else {
            assert r[i] == rest[i - 1] && r[j] == rest[j - 1];
          }
        }
      }
    }
  }

  lemma {:induction false} RemoveKeepsNoRepeats(feed: seq<Alert>, id: nat)
    requires NoRepeats(feed)
    ensures NoRepeats(Remove(feed, id))
    decreases |feed|
  {
    if feed != [] {
      assert NoRepeats(feed[1..]);
      RemoveKeepsNoRepeats(feed[1..], id);
      var rest := Remove(feed[1..], id);
      RemoveMembers(feed[1..], id);
      forall j | 0 <= j < |rest| ensures !Includes(NodeText(feed[0]), rest[j].message) {
        assert rest[j] in feed[1..];
      }
    }
  }

  /** With distinct ids, removing the node at position `i` keeps every other
      alert, in order. */
  lemma {:induction false} RemoveAt(feed: seq<Alert>, i: nat, next: nat)
    requires IdsBelow(feed, next)
    requires i < |feed|
    ensures Remove(feed, feed[i].id) == feed[..i] + feed[i + 1..]
    decreases |feed|
  {
    var id := feed[i].id;
    if i == 0 {
      RemoveAbsent(feed[1..], id);
    } else {
      assert IdsBelow(feed[1..], next);
      RemoveAt(feed[1..], i - 1, next);
      assert feed[0].id != id;
      assert feed[..i] == [feed[0]] + feed[1..][..i - 1];
      assert feed[i + 1..] == feed[1..][i..];
    }
  }

  /** Removing an id that no alert carries changes nothing. */
  lemma {:induction false} RemoveAbsent(feed: seq<Alert>, id: nat)
    requires forall a :: a in feed ==> a.id != id
    ensures Remove(feed, id) == feed
    decreases |feed|
  {
    if feed != [] {
      RemoveAbsent(feed[1..], id);
      assert [feed[0]] + feed[1..] == feed;
    }
  }
}
