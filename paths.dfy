/**
 * The application's route table: static paths, the two parameterised route
 * patterns and the builders that fill them in.
 */
module Paths {
  import opened JsString

  // Route patterns; a segment that starts with ':' is a parameter.
  const ProfilePattern: string := "/profile/:nickname"
  const ChatPattern: string := "/chat/:receiverId"

  // Static paths.
  const Home: string := "/"
  const Login: string := "/login"
  const Register: string := "/register"
  const ForgotPassword: string := "/forgot-password"
  const ProfileMe: string := "/profile/me"
  const ProfileEdit: string := "/profile/me/edit"
  const Friends: string := "/friends"
  const Notifications: string := "/notifications"
  const Messages: string := "/messages"
  const AdminDashboard: string := "/admin"

  const StaticPaths: seq<string> :=
    [Home, Login, Register, ForgotPassword, ProfileMe, ProfileEdit,
     Friends, Notifications, Messages, AdminDashboard]

  /** `PATHS.PROFILE({nickname})`. */
  function Profile(nickname: string): (p: string)
    ensures StartsWith(p, "/profile/") && p[9..] == nickname
  {
    "/profile/" + nickname
  }

  /** `PATHS.CHAT({receiverId})`. */
  function Chat(receiverId: string): (p: string)
    ensures StartsWith(p, "/chat/") && p[6..] == receiverId
  {
    "/chat/" + receiverId
  }

  /**
   * Fills every `:name` segment of a route pattern with `arg`: a ':' starts a
   * parameter that runs up to the next '/' or the end of the pattern.
   */
  function Fill(pattern: string, arg: string): string
    decreases |pattern|
  {
    if pattern == [] then []
    else if pattern[0] == ':' then arg + Fill(AfterSegment(pattern[1..]), arg)
    else [pattern[0]] + Fill(pattern[1..], arg)
  }

  /** What follows a parameter name: the pattern from the next '/' on. */
  function AfterSegment(s: string): (r: string)
    ensures |r| <= |s|
  {
    if s == [] || s[0] == '/' then s else AfterSegment(s[1..])
  }

  /** A pattern `prefix + ":" + name` with a plain prefix and a final parameter. */
  lemma {:induction false} FillFinalParameter(prefix: string, name: string, arg: string)
    requires forall i :: 0 <= i < |prefix| ==> prefix[i] != ':'
    requires forall i :: 0 <= i < |name| ==> name[i] != '/'
    ensures Fill(prefix + ":" + name, arg) == prefix + arg
  {
    if prefix == [] {
      NameRunsToEnd(name);
      assert (":" + name)[1..] == name;
    } else {
      assert (prefix + ":" + name)[1..] == prefix[1..] + ":" + name;
      FillFinalParameter(prefix[1..], name, arg);
    }
  }

  lemma {:induction false} NameRunsToEnd(name: string)
    requires forall i :: 0 <= i < |name| ==> name[i] != '/'
    ensures AfterSegment(name) == []
  {
    if name != [] {
      NameRunsToEnd(name[1..]);
    }
  }

  /** `PATHS.PROFILE` fills the `:nickname` parameter of its route pattern. */
  lemma ProfileFillsPattern(nickname: string)
    ensures Profile(nickname) == Fill(ProfilePattern, nickname)
  {
    var prefix, name := "/profile/", "nickname";
    assert ProfilePattern == prefix + ":" + name;
    assert forall i :: 0 <= i < |prefix| ==> prefix[i] != ':';
    assert forall i :: 0 <= i < |name| ==> name[i] != '/';
    FillFinalParameter(prefix, name, nickname);
  }

  /** `PATHS.CHAT` fills the `:receiverId` parameter of its route pattern. */
  lemma ChatFillsPattern(receiverId: string)
    ensures Chat(receiverId) == Fill(ChatPattern, receiverId)
  {
    var prefix, name := "/chat/", "receiverId";
    assert ChatPattern == prefix + ":" + name;
    assert forall i :: 0 <= i < |prefix| ==> prefix[i] != ':';
    assert forall i :: 0 <= i < |name| ==> name[i] != '/';
    FillFinalParameter(prefix, name, receiverId);
  }

  /** Distinct nicknames give distinct profile paths. */
  lemma ProfileInjective(a: string, b: string)
    requires Profile(a) == Profile(b)
    ensures a == b
  {
  }

  /** Distinct receiver ids give distinct chat paths. */
  lemma ChatInjective(a: string, b: string)
    requires Chat(a) == Chat(b)
    ensures a == b
  {
  }

  /** No profile path is a chat path. */
  lemma ProfileNotChat(nickname: string, receiverId: string)
    ensures Profile(nickname) != Chat(receiverId)
  {
    assert Profile(nickname)[1] == 'p' && Chat(receiverId)[1] == 'c';
  }

  /**
   * The dynamic profile route collides with the static ones: the nickname
   * "me" builds the own-profile path, and "me/edit" the edit path, which has
   * the own-profile path as a prefix.
   */
  lemma ProfileCollisions()
    ensures Profile("me") == ProfileMe
    ensures Profile("me/edit") == ProfileEdit
    ensures StartsWith(ProfileEdit, ProfileMe) && ProfileEdit != ProfileMe
  {
  }

  /** Every static path is absolute. */
  lemma StaticPathsAbsolute()
    ensures forall i :: 0 <= i < |StaticPaths| ==> StaticPaths[i] != [] && StaticPaths[i][0] == '/'
  {
  }
}
