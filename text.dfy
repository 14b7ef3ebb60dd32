/**
 * The two string helpers of a run: the publish-window test on ISO-8601
 * timestamps, which compares strings the way Python does (code point by
 * code point, a proper prefix first), and the channel handle, the part of a
 * channel URL after its last '@'.
 */
module Text {

  /** Python's `a <= b` on strings: lexicographic by code point, a prefix before its extensions. */
  function LexLeq(a: string, b: string): (r: bool)
    ensures |a| <= |b| && a == b[..|a|] ==> r
    ensures r && |a| > 0 ==> |b| > 0 && a[0] <= b[0]
  {
    if |a| == 0 then true
    else if |b| == 0 then false
    else if a[0] != b[0] then a[0] < b[0]
    else
      assert |a| <= |b| && a == b[..|a|] ==> a[1..] == b[1..][..|a| - 1];
      LexLeq(a[1..], b[1..])
  }

  lemma {:induction false} LexLeqReflexive(a: string)
    ensures LexLeq(a, a)
  {
    if |a| > 0 {
      LexLeqReflexive(a[1..]);
    }
  }

  lemma {:induction false} LexLeqAntisymmetric(a: string, b: string)
    requires LexLeq(a, b) && LexLeq(b, a)
    ensures a == b
  {
    if |a| > 0 {
      LexLeqAntisymmetric(a[1..], b[1..]);
      assert a == [a[0]] + a[1..] && b == [b[0]] + b[1..];
    }
  }

  lemma {:induction false} LexLeqTransitive(a: string, b: string, c: string)
    requires LexLeq(a, b) && LexLeq(b, c)
    ensures LexLeq(a, c)
  {
    if |a| > 0 && a[0] == b[0] && b[0] == c[0] {
      LexLeqTransitive(a[1..], b[1..], c[1..]);
    }
  }

  lemma {:induction false} LexLeqTotal(a: string, b: string)
    ensures LexLeq(a, b) || LexLeq(b, a)
  {
    if |a| > 0 && |b| > 0 && a[0] == b[0] {
      LexLeqTotal(a[1..], b[1..]);
    }
  }

  /** The publish-window test: start <= publishedAt <= end, both ends included. */
  function InWindow(start: string, end: string, publishedAt: string): (r: bool)
    ensures r ==> LexLeq(start, end)
  {
    if LexLeq(start, publishedAt) && LexLeq(publishedAt, end) then
      LexLeqTransitive(start, publishedAt, end);
      true
    else
      false
  }

  /** A window admits anything only when its start is not after its end; then both ends are admitted. */
  lemma WindowBounds(start: string, end: string, publishedAt: string)
    ensures InWindow(start, end, publishedAt) ==> LexLeq(start, end)
    ensures LexLeq(start, end) ==> InWindow(start, end, start) && InWindow(start, end, end)
  {
    if InWindow(start, end, publishedAt) {
      LexLeqTransitive(start, publishedAt, end);
    }
    LexLeqReflexive(start);
    LexLeqReflexive(end);
  }

  /** The evaluation window of the run: the publish times it admits. */
  const WindowStart: string := "2025-10-02T00:00:00Z"
  const WindowEnd: string := "2025-12-14T23:59:59Z"

  /** Strings that agree before index k and differ at k compare by their characters at k. */
  lemma {:induction false} LexLeqAtIndex(a: string, b: string, k: nat)
    requires k < |a| && k < |b| && a[k] != b[k]
    requires forall i :: 0 <= i < k ==> a[i] == b[i]
    ensures LexLeq(a, b) <==> a[k] < b[k]
  {
    if k > 0 {
      LexLeqAtIndex(a[1..], b[1..], k - 1);
    }
  }

  /** The run's window is well formed: its start is not after its end, and both ends are in it. */
  lemma CampaignWindowOrdered()
    ensures LexLeq(WindowStart, WindowEnd)
    ensures InWindow(WindowStart, WindowEnd, WindowStart) && InWindow(WindowStart, WindowEnd, WindowEnd)
  {
    LexLeqAtIndex(WindowStart, WindowEnd, 6);
    WindowBounds(WindowStart, WindowEnd, WindowStart);
  }

  /** The last second before the window's start is outside it. */
  lemma CampaignWindowExcludesEve()
    ensures !InWindow(WindowStart, WindowEnd, "2025-10-01T23:59:59Z")
  {
    LexLeqAtIndex(WindowStart, "2025-10-01T23:59:59Z", 9);
  }

  /** The first second after the window's end is outside it. */
  lemma CampaignWindowExcludesAfter()
    ensures !InWindow(WindowStart, WindowEnd, "2025-12-15T00:00:00Z")
  {
    LexLeqAtIndex("2025-12-15T00:00:00Z", WindowEnd, 9);
  }

  /**
   * `url.split('@')[-1]`: the part after the last '@', or the whole URL when
   * it has none.
   */
  function ChannelHandle(url: string): (h: string)
    ensures '@' !in h
    ensures |h| <= |url| && url[|url| - |h|..] == h
    ensures |h| < |url| ==> url[|url| - |h| - 1] == '@'
  {
    if |url| == 0 then ""
    else if url[|url| - 1] == '@' then ""
    else
      var h := ChannelHandle(url[..|url| - 1]);
      assert url[|url| - |h| - 1..] == url[..|url| - 1][|url| - 1 - |h|..] + [url[|url| - 1]];
      h + [url[|url| - 1]]
  }

  /**
   * The handle is the longest '@'-free end of the URL: any end of the URL
   * without '@' that is the whole URL or follows an '@' is the handle.
   */
  lemma HandleIsLastPiece(url: string, h: string)
    requires |h| <= |url| && url[|url| - |h|..] == h && '@' !in h
    requires |h| == |url| || url[|url| - |h| - 1] == '@'
    ensures h == ChannelHandle(url)
  {
    var g := ChannelHandle(url);
    if |g| < |h| {
      CharOfSuffix(url, h, |url| - |g| - 1);
      assert false;
    }
    if |h| < |g| {
      CharOfSuffix(url, g, |url| - |h| - 1);
      assert false;
    }
  }

  /** A character of the URL inside one of its ends belongs to that end. */
  lemma CharOfSuffix(url: string, h: string, k: int)
    ensures |h| <= |url| && url[|url| - |h|..] == h && |url| - |h| <= k < |url| ==> url[k] in h
  {
    if |h| <= |url| && url[|url| - |h|..] == h && |url| - |h| <= k < |url| {
      assert url[k] == h[k - (|url| - |h|)];
    }
  }

  /** A channel page URL of the form https://www.youtube.com/@name has handle name. */
  lemma HandleOfChannelUrl(name: string)
    requires '@' !in name
    ensures ChannelHandle("https://www.youtube.com/@" + name) == name
  {
    var url := "https://www.youtube.com/@" + name;
    assert url[|url| - |name|..] == name;
    assert url[|url| - |name| - 1] == '@';
    HandleIsLastPiece(url, name);
  }
}
