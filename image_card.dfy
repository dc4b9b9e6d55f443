/**
 * The saved-image card: a prompt shortened to its first seven space-separated
 * words, a "show more" toggle when there is more, and the picture to show.
 */
module ImageCard {
  import opened JsText
  import opened ImageTypes

  /** How many words a collapsed card shows. */
  const PreviewWords: nat := 7

  /** `prompt.split(' ').slice(0, 7).join(' ')`. */
  function TruncatedPrompt(prompt: string): (r: string)
    ensures r <= prompt
  {
    var words := Split(prompt, ' ');
    var shown := Take(words, PreviewWords);
    JoinSplit(prompt, ' ');
    JoinPrefix(words, |shown|, [' ']);
    Join(shown, [' '])
  }

  /** `prompt.split(' ').length > 7`: the prompt has at least seven spaces. */
  function ShouldShowExpand(prompt: string): (r: bool)
    ensures r <==> CountChar(prompt, ' ') >= PreviewWords
  {
    SplitCount(prompt, ' ');
    |Split(prompt, ' ')| > PreviewWords
  }

  /** Joining splits the text at the separator after the `n`-th piece. */
  lemma {:induction false} JoinAt(pieces: seq<string>, n: nat, sep: string)
    requires 1 <= n < |pieces|
    ensures Join(pieces, sep) == Join(pieces[..n], sep) + sep + Join(pieces[n..], sep)
  {
    if n > 1 {
      JoinAt(pieces[1..], n - 1, sep);
      assert pieces[..n][1..] == pieces[1..][..n - 1];
      assert pieces[1..][n - 1..] == pieces[n..];
    } else {
      assert pieces[..1] == [pieces[0]];
    }
  }

  /** The prompt is shortened exactly when it has more than seven words. */
  lemma TruncationIffExpandable(prompt: string)
    ensures ShouldShowExpand(prompt) <==> TruncatedPrompt(prompt) != prompt
    ensures !ShouldShowExpand(prompt) ==> TruncatedPrompt(prompt) == prompt
  {
    var words := Split(prompt, ' ');
    JoinSplit(prompt, ' ');
    if ShouldShowExpand(prompt) {
      JoinAt(words, PreviewWords, [' ']);
      assert |Join(words, [' '])| > |Join(words[..PreviewWords], [' '])|;
    }
  }

  /** The prompt text of the card, with `...` after it when collapsed and expandable. */
  function PromptText(prompt: string, expanded: bool): (r: string)
    ensures expanded ==> r == prompt
    ensures !expanded && !ShouldShowExpand(prompt) ==> r == prompt
    ensures !expanded && ShouldShowExpand(prompt) ==> r == TruncatedPrompt(prompt) + "..."
  {
    TruncationIffExpandable(prompt);
    (if expanded then prompt else TruncatedPrompt(prompt))
      + (if !expanded && ShouldShowExpand(prompt) then "..." else "")
  }

  /** `image.editedUrl || image.originalUrl`. */
  function DisplayUrl(image: StoredImageData): (r: string)
    ensures TruthyOpt(image.editedUrl) ==> r == image.editedUrl.value
    ensures !TruthyOpt(image.editedUrl) ==> r == image.originalUrl
  {
    if TruthyOpt(image.editedUrl) then image.editedUrl.value else image.originalUrl
  }
}
