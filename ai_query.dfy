/**
 * `query_ai`: send a prompt to the local text-generation service and clean
 * its answer. The HTTP call is an oracle whose reply is given as a value;
 * the cleanup, `re.sub(r"<.*?>", "", raw).strip()` on the stripped raw
 * answer, is modelled exactly.
 */
module AiQuery {
  import opened Options
  import opened Text

  /**
   * The service's reply: a JSON object (with or without "error" and
   * "response" keys), a body that is not JSON, or a request exception with
   * its message.
   */
  datatype AiReply = Json(error: Option<string>, response: Option<string>) | NotJson | RequestFailed(detail: string)

  const ErrorPrefix := "\U{274C} Error: "
  const NonJsonMessage := "\U{274C} API returned non-JSON response"
  const RequestErrorPrefix := "\U{274C} API request error: "

  /** Number of characters before the first line break (all of `s` when none). */
  function LineLength(s: string): (n: nat)
    ensures n <= |s|
    ensures forall k :: 0 <= k < n ==> s[k] != '\n'
    ensures n < |s| ==> s[n] == '\n'
  {
    if s == [] || s[0] == '\n' then 0 else 1 + LineLength(s[1..])
  }

  /**
   * Where the lazy `.*?>` that follows a '<' ends: the first '>' on the
   * current line (`.` does not match a line break).
   */
  function CloseOnLine(s: string): (r: Option<nat>)
    ensures r.Some? ==> r.value < LineLength(s) + 1 && r.value < |s| && s[r.value] == '>'
    ensures r.Some? ==> forall k :: 0 <= k < r.value ==> s[k] != '>' && s[k] != '\n'
    ensures r.None? <==> forall k :: 0 <= k < LineLength(s) ==> s[k] != '>'
  {
    if s == [] || s[0] == '\n' then None
    else if s[0] == '>' then Some(0)
    else match CloseOnLine(s[1..])
      case Some(k) => Some(k + 1)
      case None => None
  }

  /**
   * `re.sub(r"<.*?>", "", s)`: scanning left to right, each '<' that has a
   * '>' later on its line is removed together with everything up to the
   * nearest such '>'; scanning resumes after it.
   */
  function StripTags(s: string): (r: string)
    decreases |s|
  {
    if s == [] then []
    else if s[0] == '<' && CloseOnLine(s[1..]).Some? then StripTags(s[CloseOnLine(s[1..]).value + 2..])
    else [s[0]] + StripTags(s[1..])
  }

  /** No '<' of `s` is followed by a '>' on the same line. */
  predicate NoTagSpan(s: string) {
    forall i :: 0 <= i < |s| && s[i] == '<' ==> CloseOnLine(s[i + 1..]).None?
  }

  /** `a` is obtained from `b` by deleting characters. */
  predicate IsSubsequence(a: string, b: string)
    decreases |b|
  {
    a == [] || (b != [] && ((a[0] == b[0] && IsSubsequence(a[1..], b[1..])) || IsSubsequence(a, b[1..])))
  }

  /** The cleanup applied to the raw answer. */
  function Clean(raw: string): string {
    Strip(StripTags(Strip(raw)))
  }

  /**
   * `query_ai` on a given reply: an "error" key wins and is reported as is;
   * otherwise the "response" value (empty when missing) is cleaned; a body
   * that is not JSON and a request exception have their own messages.
   */
  function QueryAi(reply: AiReply): (r: string)
    ensures reply.Json? && reply.error.Some? ==> r == ErrorPrefix + reply.error.value
    ensures reply.Json? && reply.error.None? ==> r == Clean(reply.response.GetOr(""))
    ensures reply.Json? && reply.error.None? && reply.response.None? ==> r == ""
    ensures reply.Json? && reply.error.None? ==> NoTagSpan(r) && IsSubsequence(r, reply.response.GetOr(""))
    ensures reply.Json? && reply.error.None? ==> r == [] || (!IsSpace(r[0]) && !IsSpace(r[|r| - 1]))
    ensures reply.NotJson? ==> r == NonJsonMessage
    ensures reply.RequestFailed? ==> r == RequestErrorPrefix + reply.detail
  {
    match reply
    case Json(error, response) =>
      if error.Some? then ErrorPrefix + error.value
      else
        var raw := response.GetOr("");
        CleanIsTagFree(raw);
        CleanIsSubsequence(raw);
        Clean(raw)
    case NotJson => NonJsonMessage
    case RequestFailed(detail) => RequestErrorPrefix + detail
  }

  // ---------------------------------------------------------------------------
  // The tag-stripping pass

  /** A line with no '>' on it stays without one after the pass. */
  lemma {:induction false} OpenLineStaysOpen(x: string)
    requires CloseOnLine(x).None?
    ensures CloseOnLine(StripTags(x)).None?
    decreases |x|
  {
    if x != [] && x[0] != '\n' {
      assert x[0] != '>';
      assert CloseOnLine(x[1..]).None?;
      OpenLineStaysOpen(x[1..]);
      var t := StripTags(x[1..]);
      assert StripTags(x) == [x[0]] + t;
      assert ([x[0]] + t)[1..] == t;
    }
  }

  /** The pass leaves no '<' ... '>' on one line behind. */
  lemma {:induction false} StripTagsIsTagFree(s: string)
    ensures NoTagSpan(StripTags(s))
    decreases |s|
  {
    if s == [] {
    } else if s[0] == '<' && CloseOnLine(s[1..]).Some? {
      StripTagsIsTagFree(s[CloseOnLine(s[1..]).value + 2..]);
    } else {
      StripTagsIsTagFree(s[1..]);
      var t := StripTags(s[1..]);
      var r := [s[0]] + t;
      assert StripTags(s) == r;
      if s[0] == '<' {
        OpenLineStaysOpen(s[1..]);
        assert r[1..] == t;
      }
      forall i | 1 <= i < |r| && r[i] == '<'
        ensures CloseOnLine(r[i + 1..]).None?
      {
        assert r[i + 1..] == t[i..];
        assert t[i - 1] == '<';
      }
    }
  }

  /** A string with nothing to remove is left unchanged. */
  lemma {:induction false} StripTagsOfTagFree(s: string)
    requires NoTagSpan(s)
    ensures StripTags(s) == s
    decreases |s|
  {
    if s != [] {
      forall i | 0 <= i < |s| - 1 && s[1..][i] == '<'
        ensures CloseOnLine(s[1..][i + 1..]).None?
      {
        assert s[1..][i + 1..] == s[i + 2..];
      }
      StripTagsOfTagFree(s[1..]);
    }
  }

  /** Cutting a line short cannot give it a '>'. */
  lemma {:induction false} OpenLinePrefix(x: string, k: nat)
    requires CloseOnLine(x).None? && k <= |x|
    ensures CloseOnLine(x[..k]).None?
    decreases k
  {
    if k > 0 && x[0] != '\n' {
      assert x[..k][1..] == x[1..][..k - 1];
      OpenLinePrefix(x[1..], k - 1);
    }
  }

  /** Every slice of a tag-free string is tag-free. */
  lemma TagFreeSlice(s: string, a: nat, b: nat)
    requires NoTagSpan(s) && a <= b <= |s|
    ensures NoTagSpan(s[a..b])
  {
    var t := s[a..b];
    forall i | 0 <= i < |t| && t[i] == '<'
      ensures CloseOnLine(t[i + 1..]).None?
    {
      assert s[a + i] == '<';
      assert t[i + 1..] == s[a + i + 1..][..b - a - i - 1];
      OpenLinePrefix(s[a + i + 1..], b - a - i - 1);
    }
  }

  /** The cleaned answer holds no '<' ... '>' on one line. */
  lemma CleanIsTagFree(raw: string)
    ensures NoTagSpan(Clean(raw))
  {
    StripTagsIsTagFree(Strip(raw));
    StripKeepsTagFree(StripTags(Strip(raw)));
  }

  /** Stripping whitespace off a tag-free string leaves it tag-free. */
  lemma StripKeepsTagFree(z: string)
    requires NoTagSpan(z)
    ensures NoTagSpan(Strip(z))
  {
    var y, l := Strip(z), LeadingSpaces(z);
    assert y == z[l..l + |y|];
    TagFreeSlice(z, l, l + |y|);
  }

  /** Cleaning is idempotent: a cleaned answer is its own cleanup. */
  lemma CleanIdempotent(raw: string)
    ensures Clean(Clean(raw)) == Clean(raw)
  {
    var y := Clean(raw);
    CleanIsTagFree(raw);
    StripTrimmed(y);
    StripTagsOfTagFree(y);
  }

  // ---------------------------------------------------------------------------
  // Subsequences

  lemma {:induction false} SubsequenceRefl(s: string)
    ensures IsSubsequence(s, s)
    decreases |s|
  {
    if s != [] {
      SubsequenceRefl(s[1..]);
    }
  }

  lemma {:induction false} SubsequenceTrans(a: string, b: string, c: string)
    requires IsSubsequence(a, b) && IsSubsequence(b, c)
    ensures IsSubsequence(a, c)
    decreases |c|
  {
    if a != [] {
      assert b != [] && c != [];
      if IsSubsequence(b, c[1..]) {
        SubsequenceTrans(a, b, c[1..]);
      } else if a[0] == b[0] && IsSubsequence(a[1..], b[1..]) {
        SubsequenceTrans(a[1..], b[1..], c[1..]);
      } else {
        SubsequenceTrans(a, b[1..], c[1..]);
      }
    }
  }

  lemma {:induction false} SuffixIsSubsequence(s: string, i: nat)
    requires i <= |s|
    ensures IsSubsequence(s[i..], s)
    decreases i
  {
    if i == 0 {
      SubsequenceRefl(s);
    } else {
      assert s[1..][i - 1..] == s[i..];
      SuffixIsSubsequence(s[1..], i - 1);
    }
  }

  lemma {:induction false} PrefixIsSubsequence(s: string, k: nat)
    requires k <= |s|
    ensures IsSubsequence(s[..k], s)
    decreases k
  {
    if k > 0 {
      assert s[..k][1..] == s[1..][..k - 1];
      PrefixIsSubsequence(s[1..], k - 1);
    }
  }

  lemma SliceIsSubsequence(s: string, a: nat, b: nat)
    requires a <= b <= |s|
    ensures IsSubsequence(s[a..b], s)
  {
    assert s[a..b] == s[a..][..b - a];
    PrefixIsSubsequence(s[a..], b - a);
    SuffixIsSubsequence(s, a);
    SubsequenceTrans(s[a..b], s[a..], s);
  }

  lemma StripIsSubsequence(s: string)
    ensures IsSubsequence(Strip(s), s)
  {
    SliceIsSubsequence(s, LeadingSpaces(s), LeadingSpaces(s) + |Strip(s)|);
  }

  /** The pass only deletes characters. */
  lemma {:induction false} StripTagsIsSubsequence(s: string)
    ensures IsSubsequence(StripTags(s), s)
    decreases |s|
  {
    if s == [] {
    } else if s[0] == '<' && CloseOnLine(s[1..]).Some? {
      var k := CloseOnLine(s[1..]).value + 2;
      StripTagsIsSubsequence(s[k..]);
      SuffixIsSubsequence(s, k);
      SubsequenceTrans(StripTags(s[k..]), s[k..], s);
    } else {
      StripTagsIsSubsequence(s[1..]);
      assert ([s[0]] + StripTags(s[1..]))[1..] == StripTags(s[1..]);
    }
  }

  /** The cleaned answer is the raw answer with characters deleted. */
  lemma CleanIsSubsequence(raw: string)
    ensures IsSubsequence(Clean(raw), raw)
  {
    var a := Strip(raw);
    var z := StripTags(a);
    StripIsSubsequence(raw);
    StripTagsIsSubsequence(a);
    StripIsSubsequence(z);
    SubsequenceTrans(z, a, raw);
    SubsequenceTrans(Clean(raw), z, raw);
  }

  // ---------------------------------------------------------------------------
  // Line breaks

  /** How many line breaks `s` holds. */
  function Newlines(s: string): nat {
    if s == [] then 0 else (if s[0] == '\n' then 1 else 0) + Newlines(s[1..])
  }

  lemma {:induction false} NewlinesSplit(s: string, k: nat)
    requires k <= |s|
    ensures Newlines(s) == Newlines(s[..k]) + Newlines(s[k..])
    decreases k
  {
    if k > 0 {
      assert s[..k][1..] == s[1..][..k - 1];
      assert s[k..] == s[1..][k - 1..];
      NewlinesSplit(s[1..], k - 1);
    }
  }

  /**
   * The pass never removes a line break: a tag is closed on its own line,
   * so text between tags on different lines (a multi-line think block,
   * say) survives, only the tags go.
   */
  lemma {:induction false} StripTagsKeepsLineBreaks(s: string)
    ensures Newlines(StripTags(s)) == Newlines(s)
    decreases |s|
  {
    if s == [] {
    } else if s[0] == '<' && CloseOnLine(s[1..]).Some? {
      var j := CloseOnLine(s[1..]).value;
      StripTagsKeepsLineBreaks(s[j + 2..]);
      NewlinesSplit(s, j + 2);
      NoBreakBeforeClose(s[1..], j);
      assert s[..j + 2][1..] == s[1..][..j + 1];
    } else {
      StripTagsKeepsLineBreaks(s[1..]);
      assert ([s[0]] + StripTags(s[1..]))[1..] == StripTags(s[1..]);
    }
  }

  /** The text a tag spans, up to and including its '>', holds no line break. */
  lemma {:induction false} NoBreakBeforeClose(x: string, j: nat)
    requires j < |x| && forall k :: 0 <= k < j ==> x[k] != '\n'
    requires x[j] == '>'
    ensures Newlines(x[..j + 1]) == 0
    decreases j
  {
    if j > 0 {
      assert x[..j + 1][1..] == x[1..][..j];
      NoBreakBeforeClose(x[1..], j - 1);
    }
  }
}
