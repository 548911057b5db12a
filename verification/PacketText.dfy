/** The text field of a packet: a zero-filled C buffer of MESSAGE_MAX_SIZE (255) bytes. */
module PacketText {

  const MAX_TEXT := 253 // strncpy copies at most MESSAGE_MAX_SIZE - 2 characters

  function UpToNul(s: string): (r: string)
    ensures r <= s && '\0' !in r
  {
    if s == [] || s[0] == '\0' then [] else [s[0]] + UpToNul(s[1..])
  }

  /** What a receiver reads out of the buffer into which `s` was copied. */
  function Cut(s: string): (r: string)
    ensures r <= s && |r| <= MAX_TEXT && '\0' !in r
  {
    var t := UpToNul(s);
    if |t| <= MAX_TEXT then t else t[..MAX_TEXT]
  }

  lemma {:induction false} UpToNulKeeps(s: string)
    requires '\0' !in s
    ensures UpToNul(s) == s
  {
    if s != [] {
      UpToNulKeeps(s[1..]);
    }
  }

  lemma {:induction false} UpToNulIsLongest(s: string, p: string)
    requires p <= s && '\0' !in p
    ensures p <= UpToNul(s)
  {
    if p != [] {
      assert p[0] in p && forall c <- p[1..] :: c in p;
      UpToNulIsLongest(s[1..], p[1..]);
    }
  }

  /** What is left of a text is the longest beginning of it that is free of NUL and short enough. */
  lemma CutIsLongest(s: string, p: string)
    requires p <= s && '\0' !in p && |p| <= 253
    ensures p <= Cut(s) <= s && |Cut(s)| <= 253 && '\0' !in Cut(s)
  {
    UpToNulIsLongest(s, p);
  }

  /** A text survives the buffer exactly when it is free of NUL and short enough. */
  lemma CutKeeps(s: string)
    ensures Cut(s) == s <==> '\0' !in s && |s| <= 253
  {
    if '\0' !in s {
      UpToNulKeeps(s);
    }
  }
}
