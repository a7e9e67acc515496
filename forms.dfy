/**
 * What the form pages share: a validation issue as the schema library reports it,
 * the field -> message map every page builds from the issue list, and the
 * values a configuration form's `handleChange` can store.
 */
module Forms {
  import opened Wrappers

  /** One validation issue: the top-level field it is reported on (`path[0]`) and its message. */
  datatype Issue<K> = Issue(field: K, message: string)

  /** A value a configuration page's `handleChange` stores into one field. */
  datatype Value = Text(text: string) | Number(number: real) | Tasks(tasks: seq<string>)

  /**
   * JavaScript's `s.length`, which the schemas' `.min(n)` checks compare: the
   * number of UTF-16 code units, so a character outside the Basic
   * Multilingual Plane (above U+FFFF, such as most emoji) counts twice.
   */
  function Utf16Length(s: string): (n: nat)
    ensures |s| <= n <= 2 * |s|
    decreases |s|
  {
    if s == [] then 0
    else (if s[0] as int > 0xFFFF then 2 else 1) + Utf16Length(s[1..])
  }

  /** Without characters above U+FFFF (so for all ASCII text) the UTF-16 length is the character count. */
  lemma {:induction false} Utf16LengthBmp(s: string)
    requires forall i :: 0 <= i < |s| ==> s[i] as int <= 0xFFFF
    ensures Utf16Length(s) == |s|
    decreases |s|
  {
    if s != [] {
      assert forall i :: 0 <= i < |s[1..]| ==> s[1..][i] == s[i + 1];
      Utf16LengthBmp(s[1..]);
    }
  }

  /** Three emoji are six UTF-16 code units although they are three characters. */
  lemma Utf16LengthOfEmoji()
    ensures |"\U{1F600}\U{1F600}\U{1F600}"| == 3
    ensures Utf16Length("\U{1F600}\U{1F600}\U{1F600}") == 6
  {
    var s := "\U{1F600}\U{1F600}\U{1F600}";
    assert s[1..][1..][1..] == [];
  }

  /** The message of the LAST issue reported on `field`, or None when no issue names it. */
  function LastMessage<K(==)>(issues: seq<Issue<K>>, field: K): (r: Option<string>)
    ensures r.None? <==> forall i :: 0 <= i < |issues| ==> issues[i].field != field
    ensures r.Some? ==>
      exists i :: 0 <= i < |issues| && issues[i] == Issue(field, r.value) &&
        forall j :: i < j < |issues| ==> issues[j].field != field
    decreases |issues|
  {
    if issues == [] then None
    else if issues[|issues| - 1].field == field then Some(issues[|issues| - 1].message)
    else LastMessage(issues[..|issues| - 1], field)
  }

  /** The entry a `Partial<Record<...>>` error map holds for `field`. */
  function Lookup<K(==)>(errors: map<K, string>, field: K): (r: Option<string>)
    ensures r.Some? <==> field in errors
    ensures r.Some? ==> errors[field] == r.value
  {
    if field in errors then Some(errors[field]) else None
  }

  /**
   * The `error.errors.forEach(err => newErrors[err.path[0]] = err.message)` loop of
   * every page's submit handler: each field that has an issue ends up with the
   * message of its last issue, and no other field has an entry.
   */
  method CollectFieldErrors<K(==)>(issues: seq<Issue<K>>) returns (errors: map<K, string>)
    ensures forall k :: Lookup(errors, k) == LastMessage(issues, k)
  {
    errors := map[];
    var i := 0;
    while i < |issues|
      invariant 0 <= i <= |issues|
      invariant forall k :: Lookup(errors, k) == LastMessage(issues[..i], k)
    {
      assert issues[..i + 1][..i] == issues[..i];
      errors := errors[issues[i].field := issues[i].message];
      i := i + 1;
    }
    assert issues[..|issues|] == issues;
  }

  /** Issues appended later override earlier ones on the same field. */
  lemma {:induction false} LastMessageAppend<K>(a: seq<Issue<K>>, b: seq<Issue<K>>, field: K)
    ensures LastMessage(a + b, field) ==
      if LastMessage(b, field).Some? then LastMessage(b, field) else LastMessage(a, field)
    decreases |b|
  {
    if b == [] {
      assert a + b == a;
    } else {
      var n := |b| - 1;
      assert (a + b)[..|a + b| - 1] == a + b[..n];
      if b[n].field != field {
        LastMessageAppend(a, b[..n], field);
      }
    }
  }

  /** The issue list for one field check: empty when it passes, one issue when it fails. */
  function IssueIf<K>(field: K, message: Option<string>): (r: seq<Issue<K>>)
    ensures |r| <= 1
    ensures message.None? ==> r == []
    ensures message.Some? ==> r == [Issue(field, message.value)]
  {
    match message
    case None => []
    case Some(m) => [Issue(field, m)]
  }

  /** A single-issue list reports exactly that check's message on its field and nothing elsewhere. */
  lemma LastMessageIssueIf<K>(field: K, message: Option<string>, k: K)
    ensures LastMessage(IssueIf(field, message), k) == if k == field then message else None
  {
  }
}
