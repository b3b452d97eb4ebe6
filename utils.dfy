/** `truncateText`, the one helper of the utilities file that is pure string logic. */
module Utils {

  /** The end index JavaScript's `substring(0, n)` uses on a string of length `len`:
      a negative `n` counts as 0 and one past the end as the length. */
  function SubstringEnd(n: int, len: nat): (e: nat)
    ensures e <= len
    ensures 0 <= n <= len ==> e == n
  {
    if n < 0 then 0 else if n > len then len else n
  }

  /** Shortens `text` to `maxLength` characters followed by an ellipsis when it is longer
      than `maxLength`. The result can be longer than the input: a text one or two
      characters over the limit grows by two or one. */
  function TruncateText(text: string, maxLength: int): (r: string)
    ensures |text| <= maxLength ==> r == text
    ensures |text| > maxLength ==> |r| == SubstringEnd(maxLength, |text|) + 3 && r[|r| - 3..] == "..."
    ensures maxLength >= 0 ==> |r| <= maxLength + 3
    ensures var n := SubstringEnd(maxLength, |text|); r[..n] == text[..n]
  {
    if |text| <= maxLength then text
    else text[..SubstringEnd(maxLength, |text|)] + "..."
  }
}
