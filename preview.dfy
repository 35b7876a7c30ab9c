/**
 * The preview shown in the tooltip by `showResponse` in content.js: the
 * decision to truncate, the truncated text, and the visibility of the
 * "Read More" button.
 */
module Preview {
  import opened JsStrings

  const MaxLength: nat := 150
  const Ellipsis: string := "..."

  /** The characters of the class `[#*`_\-+]` removed before measuring. */
  predicate IsMarkdownMark(c: char)
  {
    c == '#' || c == '*' || c == '`' || c == '_' || c == '-' || c == '+'
  }

  /** `response.replace(/[#*`_\-+]/g, '')`. */
  function StripMarks(s: string): (r: string)
    ensures |r| <= |s|
    ensures forall k :: 0 <= k < |r| ==> !IsMarkdownMark(r[k])
    ensures (forall k :: 0 <= k < |s| ==> !IsMarkdownMark(s[k])) ==> r == s
    decreases |s|
  {
    if s == [] then []
    else if IsMarkdownMark(s[|s| - 1]) then StripMarks(s[..|s| - 1])
    else StripMarks(s[..|s| - 1]) + [s[|s| - 1]]
  }

  /** Stripping removes every mark and nothing else: each other character keeps its number of occurrences. */
  lemma {:induction false} StripMarksCounts(s: string)
    ensures forall c :: multiset(StripMarks(s))[c] == if IsMarkdownMark(c) then 0 else multiset(s)[c]
    decreases |s|
  {
    if s != [] {
      var init, last := s[..|s| - 1], s[|s| - 1];
      assert s == init + [last];
      StripMarksCounts(init);
    }
  }

  /** The text `showResponse` hands to the formatter, and whether it was cut. */
  datatype Shown = Shown(text: string, truncated: bool)
  {
    /** The "Read More" button is displayed exactly when the text was cut. */
    predicate ReadMoreVisible() { truncated }
  }

  /** Where the cut falls: the last space of the first 150 characters, or the very start when none lies past index 0. */
  function CutPoint(response: string): (n: nat)
    requires |response| >= 150
    ensures n < 150
    ensures n > 0 ==> response[n] == ' '
    ensures forall k :: n < k < 150 ==> response[k] != ' '
  {
    var last := LastIndexOf(response[..150], ' ');
    if last <= 0 then 0 else last
  }

  /**
   * The truncation arithmetic of `showResponse(response)`.  The text is cut
   * exactly when, without its markdown marks, it exceeds 150 characters; a
   * cut preview is the response up to the cut point followed by "...", so
   * at most 152 characters long.
   */
  function ShowResponse(response: string): (r: Shown)
    ensures r.truncated <==> |StripMarks(response)| > 150
    ensures !r.truncated ==> r.text == response
    ensures r.truncated ==> |response| > 150 && r.text == response[..CutPoint(response)] + "..."
    ensures |r.text| <= 152 || r.text == response
  {
    var truncated := |StripMarks(response)| > MaxLength;
    if !truncated then Shown(response, false)
    else
      var head := Substring(response, 0, MaxLength);
      assert head == response[..150];
      var last := LastIndexOf(head, ' ');
      var cut := Substring(head, 0, if |head| < last then |head| else last);
      assert last < 0 ==> cut == [];
      Shown(cut + Ellipsis, true)
  }

  /** A truncated preview is the bare "..." exactly when no space lies at positions 1 to 149. */
  lemma EllipsisOnly(response: string)
    requires ShowResponse(response).truncated
    ensures ShowResponse(response).text == "..." <==> forall k :: 1 <= k < 150 ==> response[k] != ' '
  {
  }

  /** A 200-character response with no space at all shows only "...". */
  lemma NoSpaceCollapses(response: string)
    requires |response| == 200
    requires forall k :: 0 <= k < 200 ==> response[k] == 'a'
    ensures ShowResponse(response) == Shown("...", true)
  {
  }
}
