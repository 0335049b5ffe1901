/**
 * The short-video copy card: the style shown for the copy's style id, and the text the
 * copy button puts on the clipboard (hook, content and call to action separated by blank
 * lines, then the hashtags on a line of their own when there are any).
 */
module TiktokResultCard {
  import opened Base
  import opened Types

  function StyleId(s: TikTokStyle): string { s.id }

  /** `TIKTOK_STYLES.find(s => s.id === copy.styleId)`: absent for an unknown id. */
  function StyleOf(copy: TikTokCopy): (r: Option<TikTokStyle>)
    ensures r.Some? ==> r.value in TIKTOK_STYLES && r.value.id == copy.styleId
    ensures r.None? <==> forall k :: 0 <= k < |TIKTOK_STYLES| ==> TIKTOK_STYLES[k].id != copy.styleId
  {
    var r := Find(TIKTOK_STYLES, StyleId, copy.styleId);
    assert r.Some? ==> r.value == TIKTOK_STYLES[FindIndex(TIKTOK_STYLES, StyleId, copy.styleId).value];
    r
  }

  /** `hashtags.map(h => `#${h}`)` */
  function Hashed(hashtags: seq<string>): (r: seq<string>)
    ensures |r| == |hashtags| && forall i :: 0 <= i < |r| ==> r[i] == "#" + hashtags[i]
  {
    seq(|hashtags|, i requires 0 <= i < |hashtags| => "#" + hashtags[i])
  }

  /** The hashtag line: each tag behind a '#', separated by single spaces. */
  function HashtagLine(hashtags: seq<string>): string
  {
    Join(Hashed(hashtags), " ")
  }

  /** `getFullText()` */
  function FullText(copy: TikTokCopy): string
  {
    copy.hook + "\n\n" + copy.content + "\n\n" + copy.cta
    + (if |copy.hashtags| > 0 then "\n\n" + HashtagLine(copy.hashtags) else "")
  }

  /** The parts of the text, one per line, with the empty lines between them. */
  function TextLines(copy: TikTokCopy): (r: seq<string>)
    ensures |r| == (if |copy.hashtags| > 0 then 7 else 5)
  {
    [copy.hook, "", copy.content, "", copy.cta]
    + (if |copy.hashtags| > 0 then ["", HashtagLine(copy.hashtags)] else [])
  }

  lemma JoinCons(x: string, xs: seq<string>, sep: string)
    requires xs != []
    ensures Join([x] + xs, sep) == x + sep + Join(xs, sep)
  {
    assert ([x] + xs)[1..] == xs;
  }

  /** The clipboard text is its parts joined by line breaks. */
  lemma {:induction false} FullTextJoins(copy: TikTokCopy)
    ensures FullText(copy) == Join(TextLines(copy), "\n")
  {
    var tail := if |copy.hashtags| > 0 then ["", HashtagLine(copy.hashtags)] else [];
    var last := Join([copy.cta] + tail, "\n");
    if tail == [] {
      assert [copy.cta] + tail == [copy.cta];
      assert last == copy.cta;
    } else {
      JoinCons(copy.cta, tail, "\n");
      JoinCons("", [HashtagLine(copy.hashtags)], "\n");
      assert last == copy.cta + "\n\n" + HashtagLine(copy.hashtags);
    }
    var l3 := [""] + ([copy.cta] + tail);
    JoinCons("", [copy.cta] + tail, "\n");
    var l2 := [copy.content] + l3;
    JoinCons(copy.content, l3, "\n");
    var l1 := [""] + l2;
    JoinCons("", l2, "\n");
    JoinCons(copy.hook, l1, "\n");
    assert TextLines(copy) == [copy.hook] + l1;
  }

  /**
   * When no part holds a line break the copied text gives its parts back line by line: the
   * hook, content and call to action with an empty line between them, then, only when
   * there are hashtags, an empty line and the hashtag line.
   */
  lemma FullTextLines(copy: TikTokCopy)
    requires '\n' !in copy.hook && '\n' !in copy.content && '\n' !in copy.cta
    requires forall i :: 0 <= i < |copy.hashtags| ==> '\n' !in copy.hashtags[i]
    ensures Split(FullText(copy), '\n') == TextLines(copy)
  {
    FullTextJoins(copy);
    if |copy.hashtags| > 0 {
      HashtagLineSeparators(copy.hashtags, '\n');
    }
    SplitJoin(TextLines(copy), '\n');
  }

  /** The hashtag line holds no character that no tag holds, apart from '#' and ' '. */
  lemma {:induction false} HashtagLineSeparators(hashtags: seq<string>, c: char)
    requires c != '#' && c != ' '
    requires forall i :: 0 <= i < |hashtags| ==> c !in hashtags[i]
    ensures c !in HashtagLine(hashtags)
  {
    if |hashtags| > 1 {
      assert Hashed(hashtags)[1..] == Hashed(hashtags[1..]);
      HashtagLineSeparators(hashtags[1..], c);
    }
  }

  /** Tags without spaces come back from the hashtag line, each behind its '#', in order. */
  lemma HashtagsRecoverable(hashtags: seq<string>)
    requires hashtags != []
    requires forall i :: 0 <= i < |hashtags| ==> ' ' !in hashtags[i]
    ensures Split(HashtagLine(hashtags), ' ') == Hashed(hashtags)
    ensures forall i :: 0 <= i < |hashtags| ==> Hashed(hashtags)[i][1..] == hashtags[i]
  {
    SplitJoin(Hashed(hashtags), ' ');
  }
}
