/** Topic keys `<domain>/<name>/<type>/<hash>`: the builder, what a key tells
    about the topic it was built from, and which topics share one. */
module TopicKey {
  import opened CText

  datatype Option<T> = None | Some(value: T)

  datatype Topic = Topic(domain: string, name: string, typeName: string, hash: string)

  function WithoutLeadingSlash(name: string): string {
    if name != "" && name[0] == '/' then name[1..] else name
  }

  /** The part of a key between the domain and the type, with the slash that
      ends it. */
  function Middle(name: string): string {
    if name == "" then ""
    else WithoutLeadingSlash(name) + (if name[|name| - 1] != '/' then "/" else "")
  }

  function Key(t: Topic): string {
    t.domain + "/" + Middle(t.name) + t.typeName + "/" + t.hash
  }

  /** Everything written before the last `snprintf`. */
  function Front(t: Topic): string { t.domain + "/" + Middle(t.name) }

  /** C strings. */
  predicate NulFree(t: Topic) { NUL !in t.domain && NUL !in t.name && NUL !in t.typeName && NUL !in t.hash }

  /** The buffer holds as much of a text as fits, and a terminator. */
  ghost predicate Filled(buf: array<char>, text: string)
    reads buf
  {
    buf.Length > 0 && NUL !in text
    && var out := Cut(text, buf.Length - 1);
       buf[..|out|] == out && buf[|out|] == NUL
  }

  /** One `snprintf` with the pointer and the remaining size moved on. A
      negative size would be taken for a huge one, so it must not come to that. */
  method Put(buf: array<char>, ptr: nat, left: int, s: string, ghost text: string) returns (ptr': nat, left': int)
    requires Filled(buf, text) && ptr == |text| && left == buf.Length - ptr && left >= 0 && NUL !in s
    modifies buf
    ensures Filled(buf, text + s) && ptr' == |text + s| && left' == buf.Length - ptr'
  {
    ghost var was := buf[..];
    var ret := Snprintf(buf, ptr, left, s);
    if left > 0 {
      CutAppend(text, s, buf.Length - 1);
      assert was[..ptr] == text;
      assert buf[..] == Cut(text + s, buf.Length - 1) + [NUL] + was[ptr + |Cut(s, left - 1)| + 1..];
    } else {
      assert Cut(text + s, buf.Length - 1) == Cut(text, buf.Length - 1);
    }
    ptr', left' := ptr + ret, left - ret;
  }

  lemma StripCases(name: string)
    requires name != ""
    ensures WithoutLeadingSlash(name) == if name[0] != '/' then name else name[1..]
  {
  }

  lemma MiddleHasNoNul(name: string)
    requires NUL !in name
    ensures NUL !in Middle(name)
  {
    assert forall c :: c in WithoutLeadingSlash(name) ==> c in name;
  }

  /** The key in a buffer of n characters: cut to n - 1, or nothing defined if
      the part before the type runs past the buffer, for then the builder
      writes outside it. */
  method RosTopicNameToZenohKey(t: Topic, n: nat) returns (key: Option<string>)
    requires NulFree(t) && n > 0
    ensures key == if |Front(t)| <= n then Some(Cut(Key(t), n - 1)) else None
  {
    hide Middle, UpToNul, Cut;
    var buf := new char[n](_ => NUL);
    ghost var text := t.domain + "/";
    EmptyCut(n - 1);
    var ptr, left := Put(buf, 0, n, t.domain + "/", "");
    assert "" + text == text;
    if t.name != "" {
      if left < 0 {
        return None;
      }
      ptr, left := PutName(buf, ptr, left, t.name, text);
    } else {
      NoMiddle();
      assert text + Middle(t.name) == text;
    }
    text := Front(t);
    if left < 0 {
      return None;
    }
    ptr, left := Put(buf, ptr, left, t.typeName + "/" + t.hash, text);
    assert Key(t) == text + (t.typeName + "/" + t.hash);
    key := Some(ReadBack(buf, Key(t)));
  }

  /** No buffer is large enough for every name. */
  method LongNameRunsOver(n: nat) returns (key: Option<string>)
    requires n > 0
    ensures key.None?
  {
    var name := seq(n, i => 'a');
    key := RosTopicNameToZenohKey(Topic("0", name, "T", "H"), n);
  }

  lemma EmptyCut(max: nat)
    ensures Cut("", max) == ""
  {
  }

  function ReadBack(buf: array<char>, ghost text: string): (s: string)
    requires Filled(buf, text)
    reads buf
    ensures s == Cut(text, buf.Length - 1)
  {
    assert NUL !in Cut(text, buf.Length - 1);
    UpToNulAt(buf[..], |Cut(text, buf.Length - 1)|);
    UpToNul(buf[..])
  }

  lemma NoMiddle()
    ensures Middle("") == ""
  {
  }

  /** The name without its leading slash, then a slash unless one is there. A
      negative size left is carried to the end. */
  method PutName(buf: array<char>, ptr: nat, left: int, name: string, ghost text: string)
    returns (ptr': nat, left': int)
    requires name != "" && NUL !in name
    requires Filled(buf, text) && ptr == |text| && left == buf.Length - ptr && left >= 0
    modifies buf
    ensures left' == buf.Length - |text + Middle(name)|
    ensures left' >= 0 ==> Filled(buf, text + Middle(name)) && ptr' == |text + Middle(name)|
  {
    hide WithoutLeadingSlash, Filled;
    StripCases(name);
    MiddleHasNoNul(name);
    var shown := WithoutLeadingSlash(name);
    if name[0] != '/' {
      ptr', left' := Put(buf, ptr, left, name, text);
    } else {
      ptr', left' := Put(buf, ptr, left, name[1..], text);
    }
    if name[|name| - 1] != '/' {
      assert text + Middle(name) == text + shown + "/";
      if left' < 0 {
        left' := left' - 1;
        return;
      }
      ptr', left' := Put(buf, ptr', left', "/", text + shown);
    } else {
      assert Middle(name) == shown;
    }
  }

  /** The key is whole exactly when it leaves room for the terminator. */
  lemma KeyWholeExactly(t: Topic, n: nat)
    requires n > 0
    ensures |Front(t)| <= n && Cut(Key(t), n - 1) == Key(t) <==> |Key(t)| < n
  {
    assert Key(t) == Front(t) + (t.typeName + "/" + t.hash);
  }

  /* What a key tells */

  function MiddleParts(middle: string): seq<string> {
    if middle == "" then [] else Split(middle[..|middle| - 1], '/')
  }

  /** The fields a reader of the key sees: the first, the last two, and
      everything between. */
  function Parse(key: string): Topic {
    var parts := Split(key, '/');
    var n := |parts|;
    if n < 3 then Topic(key, "", "", "")
    else Topic(parts[0], if n == 3 then "" else Join(parts[1..n - 2], '/'), parts[n - 2], parts[n - 1])
  }

  predicate SlashFree(t: Topic) { '/' !in t.domain && '/' !in t.typeName && '/' !in t.hash }

  lemma MiddleShape(name: string)
    ensures Middle(name) == "" || Middle(name)[|Middle(name)| - 1] == '/'
  {
  }

  lemma SplitKey(t: Topic)
    requires SlashFree(t)
    ensures Split(Key(t), '/') == [t.domain] + MiddleParts(Middle(t.name)) + [t.typeName, t.hash]
  {
    hide Split, Middle;
    var m := Middle(t.name);
    var tail := t.typeName + ['/'] + t.hash;
    assert Split(tail, '/') == [t.typeName, t.hash] by {
      SplitNone(t.typeName, '/');
      SplitNone(t.hash, '/');
      SplitConcat(t.typeName, t.hash, '/');
    }
    SplitNone(t.domain, '/');
    MiddleShape(t.name);
    assert Key(t) == t.domain + ['/'] + (m + tail);
    SplitConcat(t.domain, m + tail, '/');
    if m == "" {
      assert m + tail == tail;
    } else {
      assert m + tail == m[..|m| - 1] + ['/'] + tail;
      SplitConcat(m[..|m| - 1], tail, '/');
    }
  }

  lemma ParseKey(t: Topic)
    requires SlashFree(t)
    ensures var m := Middle(t.name);
      Parse(Key(t)) == t.(name := if m == "" then "" else m[..|m| - 1])
  {
    var m := Middle(t.name);
    SplitKey(t);
    var parts := [t.domain] + MiddleParts(m) + [t.typeName, t.hash];
    if m != "" {
      var inner := m[..|m| - 1];
      assert parts[1..|parts| - 2] == Split(inner, '/');
      JoinOfSplit(inner, '/');
    }
  }

  /** The name comes back, less its leading slash, exactly when it does not end
      in a slash (or is nothing but one). */
  lemma NameRecoveredExactly(t: Topic)
    requires SlashFree(t)
    ensures Parse(Key(t)) == t.(name := WithoutLeadingSlash(t.name))
       <==> t.name == "" || t.name == "/" || t.name[|t.name| - 1] != '/'
  {
    ParseKey(t);
    var m, w := Middle(t.name), WithoutLeadingSlash(t.name);
    if t.name != "" && t.name[|t.name| - 1] != '/' {
      assert m[..|m| - 1] == w;
    } else if t.name != "" && t.name != "/" {
      assert m == w && |w| > 0;
    }
  }

  /** Two topics share a key exactly when everything but the slashes around
      their names agrees. */
  lemma KeysCollideExactly(s: Topic, t: Topic)
    requires SlashFree(s) && SlashFree(t)
    ensures Key(s) == Key(t)
       <==> s.domain == t.domain && s.typeName == t.typeName && s.hash == t.hash && Middle(s.name) == Middle(t.name)
  {
    hide Middle, MiddleParts;
    if Key(s) == Key(t) {
      SplitKey(s);
      SplitKey(t);
      SameEnds(s.domain, MiddleParts(Middle(s.name)), s.typeName, s.hash,
               t.domain, MiddleParts(Middle(t.name)), t.typeName, t.hash);
      MiddleShape(s.name);
      MiddleShape(t.name);
      MiddleFromParts(Middle(s.name));
      MiddleFromParts(Middle(t.name));
    }
  }

  lemma SameEnds(a: string, p: seq<string>, b: string, c: string, a': string, p': seq<string>, b': string, c': string)
    requires [a] + p + [b, c] == [a'] + p' + [b', c']
    ensures a == a' && p == p' && b == b' && c == c'
  {
    var parts := [a] + p + [b, c];
    assert parts[0] == a && parts[|parts| - 2] == b && parts[|parts| - 1] == c;
    assert parts[1..|parts| - 2] == p;
    assert ([a'] + p' + [b', c'])[1..|parts| - 2] == p';
  }

  lemma MiddleFromParts(m: string)
    requires m == "" || m[|m| - 1] == '/'
    ensures m == if MiddleParts(m) == [] then "" else Join(MiddleParts(m), '/') + "/"
  {
    if m != "" {
      JoinOfSplit(m[..|m| - 1], '/');
    }
  }

  /** For instance a name with and without its leading slash. */
  lemma LeadingSlashCollides(t: Topic)
    requires t.name != "" && t.name[0] != '/'
    ensures Key(t.(name := "/" + t.name)) == Key(t)
  {
    assert ("/" + t.name)[1..] == t.name;
  }
}
