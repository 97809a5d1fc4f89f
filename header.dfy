/**
 * The site header: the avatar's initials, the XP bar, and the sign-out
 * button that empties the store's user and brings back Sign In / Sign Up.
 */
module Header {
  import opened Types
  import opened Strings
  import opened JsNumbers
  import opened Store
  import opened Dashboard

  /** `n[0]` for each part, where the first character of an empty part is rendered as nothing. */
  function FirstChars(parts: seq<string>): (r: seq<string>)
    ensures |r| == |parts|
    ensures forall k :: 0 <= k < |parts| ==> r[k] == (if |parts[k]| > 0 then [parts[k][0]] else "")
  {
    if |parts| == 0 then []
    else [if |parts[0]| > 0 then [parts[0][0]] else ""] + FirstChars(parts[1..])
  }

  /** `user.name.split(' ').map(n => n[0]).join('').toUpperCase()` */
  function Initials(name: string): string {
    ToUpper(Join(FirstChars(Split(name, ' ')), ""))
  }

  /**
   * The reference reading: the characters of `s` that are not spaces and
   * start a word, that is stand first or after a space.  `atStart` says
   * whether the character before `s` was a space (or there was none).
   */
  function WordStarts(s: string, atStart: bool): (r: string)
    ensures |r| <= |s|
    ensures forall k :: 0 <= k < |r| ==> r[k] != ' '
  {
    if |s| == 0 then ""
    else if s[0] == ' ' then WordStarts(s[1..], true)
    else (if atStart then [s[0]] else "") + WordStarts(s[1..], false)
  }

  function Concat(parts: seq<string>): string {
    if |parts| == 0 then "" else parts[0] + Concat(parts[1..])
  }

  lemma {:induction false} JoinEmptyIsConcat(parts: seq<string>)
    ensures Join(parts, "") == Concat(parts)
  {
    if |parts| > 1 {
      JoinEmptyIsConcat(parts[1..]);
    }
  }

  lemma {:induction false} FirstCharsOfSplit(s: string)
    ensures Concat(FirstChars(Split(s, ' '))) == WordStarts(s, true)
    ensures Concat(FirstChars(Split(s, ' ')[1..])) == WordStarts(s, false)
    decreases |s|
  {
    if |s| > 0 {
      var rest := Split(s[1..], ' ');
      FirstCharsOfSplit(s[1..]);
      if s[0] == ' ' {
        assert Split(s, ' ') == [""] + rest;
        assert Split(s, ' ')[1..] == rest;
        assert FirstChars([""] + rest)[1..] == FirstChars(rest);
      } else {
        var parts := Split(s, ' ');
        assert parts == [[s[0]] + rest[0]] + rest[1..];
        assert parts[1..] == rest[1..];
        assert FirstChars(parts)[1..] == FirstChars(rest[1..]);
        assert FirstChars(parts)[0] == [s[0]];
      }
    }
  }

  /**
   * The initials are the upper-cased first letters of the space-separated
   * words, in order: a leading, trailing or doubled space adds nothing.
   */
  lemma InitialsAreWordStarts(name: string)
    ensures Initials(name) == ToUpper(WordStarts(name, true))
  {
    JoinEmptyIsConcat(FirstChars(Split(name, ' ')));
    FirstCharsOfSplit(name);
  }

  /** A name without a space has a single initial, its first character upper-cased. */
  lemma SingleWordInitial(name: string)
    requires |name| > 0 && ' ' !in name
    ensures Initials(name) == [UpperChar(name[0])]
  {
    InitialsAreWordStarts(name);
    NoSpaceNoStarts(name[1..]);
  }

  lemma {:induction false} NoSpaceNoStarts(s: string)
    requires ' ' !in s
    ensures WordStarts(s, false) == ""
  {
    if |s| > 0 {
      assert s[0] in s;
      assert forall c :: c in s[1..] ==> c in s;
      NoSpaceNoStarts(s[1..]);
    }
  }

  /** `getLevelProgress`: 0 without a user, otherwise `xp / maxXp * 100`. */
  function HeaderLevelProgress(user: Option<User>): (p: Num)
    ensures user.None? ==> p == Fin(0.0)
    ensures user.Some? ==> p == LevelProgress(user.value)
    ensures user.Some? && 0 <= user.value.xp <= user.value.maxXp && user.value.maxXp > 0 ==> p.Fin? && 0.0 <= p.v <= 100.0
  {
    if user.None? then Fin(0.0) else LevelProgress(user.value)
  }

  /** What the header's right-hand side shows. */
  datatype UserSection =
    | SignedIn(level: int, progress: Num, xp: int, initials: string, name: string, email: string)
    | SignInButtons

  function Section(user: Option<User>): (s: UserSection)
    ensures s.SignInButtons? <==> user.None?
    ensures s.SignedIn? ==> s.initials == Initials(user.value.name) && s.progress == LevelProgress(user.value)
    ensures s.SignedIn? ==> s.level == user.value.level && s.xp == user.value.xp
  {
    if user.None? then SignInButtons
    else SignedIn(user.value.level, HeaderLevelProgress(user), user.value.xp, Initials(user.value.name),
                  user.value.name, user.value.email)
  }

  /** `handleSignOut`: the store forgets the user and nothing else; the header then offers Sign In / Sign Up. */
  method SignOut(store: AppStore)
    modifies store
    ensures store.user.None? && Section(store.user) == SignInButtons
    ensures store.skillVector == old(store.skillVector) && store.recommendations == old(store.recommendations)
    ensures store.currentCareer == old(store.currentCareer) && store.watchProgress == old(store.watchProgress)
    ensures store.isLoading == old(store.isLoading)
  {
    store.SetUser(None);
  }
}
