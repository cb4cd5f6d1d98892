/** The profile dashboard: the profile fields it shows and edits, the merge
    of a fetched profile with the session's identity, the image-type check
    on a selected avatar file, the email check before an update, and the
    upload and update handlers.  Replies of the profile API are parameters;
    every call the page makes is appended to `calls`. */
module Dashboard {
  import opened Common
  import opened Session

  /** `userData`: the profile as the page holds it. */
  datatype Profile = Profile(fullname: string, email: string, phone: string, bio: string, avatar: string)

  /** A fetched profile: any of its fields may be missing. */
  datatype ProfileReply = ProfileReply(
    fullname: Option<string>, email: Option<string>, phone: Option<string>,
    bio: Option<string>, avatar: Option<string>)

  /** The inputs of the edit form, by their `name` attribute. */
  datatype Field = Fullname | Email | Phone | Bio

  /** A file the file input hands over: only its MIME type is inspected. */
  datatype FileInfo = FileInfo(name: string, mimeType: string)

  datatype ApiCall =
    | FetchProfile(userId: string)
    | UploadAvatar(userId: string, upload: FileInfo)
    | UpdateProfile(userId: string, data: Profile)

  datatype FetchOutcome = Fetched(reply: ProfileReply) | FetchFailed
  datatype UploadOutcome = Uploaded(url: string) | UploadFailed
  datatype UpdateOutcome = Updated(data: Profile) | UpdateFailed

  // ---------------------------------------------------------------------
  // Profile values
  // ---------------------------------------------------------------------

  /** A reply field that is present and not empty (a truthy string). */
  predicate Given(a: Option<string>) {
    a.Some? && a.value != ""
  }

  /** The profile the page starts with: the session's name and email (an
      absent email reads as empty), every other field empty. */
  function InitialProfile(u: User): (p: Profile)
    ensures p.fullname == u.name
    ensures u.email.Some? ==> p.email == u.email.value
    ensures u.email.None? ==> p.email == ""
    ensures p.phone == "" && p.bio == "" && p.avatar == ""
  {
    Profile(Or(Some(u.name), ""), Or(u.email, ""), "", "", "")
  }

  /** The fetched profile merged field by field: a non-empty reply value
      wins; otherwise name and email fall back to the session's identity,
      and the other fields to the empty string. */
  function Merged(u: User, reply: ProfileReply): (p: Profile)
    ensures Given(reply.fullname) ==> p.fullname == reply.fullname.value
    ensures !Given(reply.fullname) ==> p.fullname == InitialProfile(u).fullname
    ensures Given(reply.email) ==> p.email == reply.email.value
    ensures !Given(reply.email) ==> p.email == InitialProfile(u).email
    ensures Given(reply.phone) ==> p.phone == reply.phone.value
    ensures !Given(reply.phone) ==> p.phone == ""
    ensures Given(reply.bio) ==> p.bio == reply.bio.value
    ensures !Given(reply.bio) ==> p.bio == ""
    ensures Given(reply.avatar) ==> p.avatar == reply.avatar.value
    ensures !Given(reply.avatar) ==> p.avatar == ""
  {
    Profile(
      Or(reply.fullname, Or(Some(u.name), "")),
      Or(reply.email, Or(u.email, "")),
      Or(reply.phone, ""),
      Or(reply.bio, ""),
      Or(reply.avatar, ""))
  }

  /** A reply with every field present. */
  function ReplyOf(p: Profile): ProfileReply {
    ProfileReply(Some(p.fullname), Some(p.email), Some(p.phone), Some(p.bio), Some(p.avatar))
  }

  /** A reply with nothing in it merges into exactly the initial profile. */
  lemma EmptyReplyGivesInitialProfile(u: User)
    ensures Merged(u, ProfileReply(None, None, None, None, None)) == InitialProfile(u)
  {
  }

  /** A reply that carries a profile with a name and an email is taken as it
      is, whoever the session user is. */
  lemma CompleteReplyIsTakenAsIs(u: User, p: Profile)
    requires p.fullname != "" && p.email != ""
    ensures Merged(u, ReplyOf(p)) == p
  {
  }

  function Get(p: Profile, f: Field): string {
    match f
    case Fullname => p.fullname
    case Email => p.email
    case Phone => p.phone
    case Bio => p.bio
  }

  /** `{...userData, [name]: value}` for one of the form's inputs. */
  function Edited(p: Profile, f: Field, value: string): (r: Profile)
    ensures Get(r, f) == value
    ensures forall g :: g != f ==> Get(r, g) == Get(p, g)
    ensures r.avatar == p.avatar
  {
    match f
    case Fullname => p.(fullname := value)
    case Email => p.(email := value)
    case Phone => p.(phone := value)
    case Bio => p.(bio := value)
  }

  /** Writing back a field's old value undoes an edit; editing twice keeps
      only the second value; edits of different fields commute. */
  lemma EditLaws(p: Profile, f: Field, g: Field, v: string, w: string)
    ensures Edited(Edited(p, f, v), f, Get(p, f)) == p
    ensures Edited(Edited(p, f, v), f, w) == Edited(p, f, w)
    ensures f != g ==> Edited(Edited(p, f, v), g, w) == Edited(Edited(p, g, w), f, v)
  {
  }

  // ---------------------------------------------------------------------
  // The image-type check and the email regular expression
  //   ^[^\s@]+@[^\s@]+\.[^\s@]+$
  // ---------------------------------------------------------------------

  const ImagePrefix := "image/"

  /** `type.startsWith('image/')`: an image type is `image/` followed by
      the rest of the type. */
  function IsImageType(t: string): (b: bool)
    ensures b ==> |t| >= |ImagePrefix| && t == ImagePrefix + t[|ImagePrefix|..]
    ensures |t| < |ImagePrefix| ==> !b
  {
    |t| >= |ImagePrefix| && t[..|ImagePrefix|] == ImagePrefix
  }

  /** A type passes the image check exactly when it is `image/` followed by
      any text. */
  lemma ImageTypeIff(t: string)
    ensures IsImageType(t) <==> exists rest :: t == ImagePrefix + rest
  {
    if IsImageType(t) {
      assert t == ImagePrefix + t[|ImagePrefix|..];
    }
    if rest :| t == ImagePrefix + rest {
      assert t[..|ImagePrefix|] == ImagePrefix;
    }
  }

  /** PNG and JPEG files pass the image check; a PDF, or a type that only
      begins with `image` but lacks the slash, does not. */
  lemma ImageTypeExamples()
    ensures IsImageType("image/png") && IsImageType("image/jpeg")
    ensures !IsImageType("application/pdf") && !IsImageType("imagepng")
  {
    assert "image/png"[..6] == ImagePrefix;
    assert "image/jpeg"[..6] == ImagePrefix;
    assert "application/pdf"[0] != ImagePrefix[0];
    assert "imagepng"[5] != ImagePrefix[5];
  }

  /** `\s` in a JavaScript regular expression: the white-space and
      line-terminator characters. */
  predicate IsJsWhitespace(c: char) {
    var n := c as int;
    || (9 <= n <= 13) || n == 32 || n == 0xA0 || n == 0x1680
    || (0x2000 <= n <= 0x200A) || n == 0x2028 || n == 0x2029
    || n == 0x202F || n == 0x205F || n == 0x3000 || n == 0xFEFF
  }

  /** The class `[^\s@]`. */
  predicate Plain(c: char) {
    !IsJsWhitespace(c) && c != '@'
  }

  /** `[^\s@]+` matching the whole of `s`. */
  predicate PlainRun(s: string) {
    |s| > 0 && forall k | 0 <= k < |s| :: Plain(s[k])
  }

  /** The email regular expression: three runs of `[^\s@]`, the first two
      separated by `@`, the last two by `.`. */
  function IsEmail(s: string): (e: bool)
    ensures e ==> |s| >= 5 && s[0] != '@' && s[|s| - 1] != '@'
  {
    exists i, j | 0 < i && i + 1 < j && j + 1 < |s| ::
      && s[i] == '@' && s[j] == '.'
      && PlainRun(s[..i]) && PlainRun(s[i + 1..j]) && PlainRun(s[j + 1..])
  }

  /** An address passes the email check exactly when it has no white space,
      exactly one `@` and that not first, and after the `@` a `.` with text
      on both sides of it. */
  lemma EmailIff(s: string)
    ensures IsEmail(s) <==>
      && (forall k | 0 <= k < |s| :: !IsJsWhitespace(s[k]))
      && exists i | 0 < i < |s| ::
           && s[i] == '@'
           && (forall k | 0 <= k < |s| && k != i :: s[k] != '@')
           && (exists j | i + 1 < j < |s| - 1 :: s[j] == '.')
  {
    if IsEmail(s) {
      var i, j :| 0 < i && i + 1 < j && j + 1 < |s| && s[i] == '@' && s[j] == '.'
        && PlainRun(s[..i]) && PlainRun(s[i + 1..j]) && PlainRun(s[j + 1..]);
      forall k | 0 <= k < |s| && k != i && k != j
        ensures Plain(s[k])
      {
        if k < i {
          assert s[..i][k] == s[k];
        } else if k < j {
          assert s[i + 1..j][k - i - 1] == s[k];
        } else {
          assert s[j + 1..][k - j - 1] == s[k];
        }
      }
      assert !IsJsWhitespace(s[i]) && !IsJsWhitespace(s[j]);
    }
    if && (forall k | 0 <= k < |s| :: !IsJsWhitespace(s[k]))
       && exists i | 0 < i < |s| ::
            && s[i] == '@'
            && (forall k | 0 <= k < |s| && k != i :: s[k] != '@')
            && (exists j | i + 1 < j < |s| - 1 :: s[j] == '.')
    {
      var i :| 0 < i < |s| && s[i] == '@'
        && (forall k | 0 <= k < |s| && k != i :: s[k] != '@')
        && (exists j | i + 1 < j < |s| - 1 :: s[j] == '.');
      var j :| i + 1 < j < |s| - 1 && s[j] == '.';
      assert forall k | 0 <= k < |s| && k != i :: Plain(s[k]);
      assert PlainRun(s[..i]);
      assert PlainRun(s[i + 1..j]);
      assert PlainRun(s[j + 1..]);
    }
  }

  /** An ordinary address passes the email check. */
  lemma EmailAccepted()
    ensures IsEmail("a@b.com")
  {
    var s := "a@b.com";
    assert s[1] == '@' && s[3] == '.';
    assert PlainRun(s[..1]) && PlainRun(s[2..3]) && PlainRun(s[4..]);
  }

  /** A second `@`, or a space, makes an address fail the email check. */
  lemma EmailRejected()
    ensures !IsEmail("a@b@c.com")
    ensures !IsEmail("a b@c.com")
  {
    var twoAts := "a@b@c.com";
    EmailIff(twoAts);
    assert twoAts[1] == '@' && twoAts[3] == '@';
    var spaced := "a b@c.com";
    EmailIff(spaced);
    assert IsJsWhitespace(spaced[1]);
  }

  // ---------------------------------------------------------------------
  // The page's state and handlers
  // ---------------------------------------------------------------------

  class ProfilePage {
    const user: User
    var userData: Profile
    var file: Option<FileInfo>
    var uploading: bool
    var isEditing: bool
    var calls: seq<ApiCall>

    constructor (user: User)
      ensures this.user == user
      ensures userData == InitialProfile(user)
      ensures file == None && !uploading && !isEditing && calls == []
    {
      this.user := user;
      userData := InitialProfile(user);
      file := None;
      uploading := false;
      isEditing := false;
      calls := [];
    }

    /** The fetch effect: only for an authenticated user; a failed fetch
        leaves the profile as it was. */
    method FetchUserData(outcome: FetchOutcome)
      modifies this
      ensures file == old(file) && uploading == old(uploading) && isEditing == old(isEditing)
      ensures calls == if user.auth then old(calls) + [FetchProfile(user.id)] else old(calls)
      ensures userData == if user.auth && outcome.Fetched? then Merged(user, outcome.reply) else old(userData)
    {
      if user.auth {
        calls := calls + [FetchProfile(user.id)];
        match outcome
        case Fetched(reply) =>
          userData := Merged(user, reply);
        case FetchFailed =>
      }
    }

    /** `handleFileChange`: a selected file that is not an image is refused
        (the page shows an error) and `file` keeps its value; otherwise
        `file` becomes the selection, which is nothing when the selection
        was cancelled. */
    method HandleFileChange(selected: Option<FileInfo>) returns (refused: bool)
      modifies this
      ensures refused <==> selected.Some? && !IsImageType(selected.value.mimeType)
      ensures file == if refused then old(file) else selected
      ensures userData == old(userData) && uploading == old(uploading)
      ensures isEditing == old(isEditing) && calls == old(calls)
    {
      if selected.Some? && !IsImageType(selected.value.mimeType) {
        refused := true;
        return;
      }
      refused := false;
      file := selected;
    }

    /** The upload request of `handleUploadAvatar` and its reply: it may
        only be sent while `uploading` is set and a file is selected; a
        successful upload changes only the avatar. */
    method PostAvatar(outcome: UploadOutcome)
      requires uploading && file.Some?
      modifies this
      ensures calls == old(calls) + [UploadAvatar(user.id, old(file).value)]
      ensures userData == if outcome.Uploaded? then old(userData).(avatar := outcome.url) else old(userData)
      ensures file == old(file) && uploading && isEditing == old(isEditing)
    {
      calls := calls + [UploadAvatar(user.id, file.value)];
      match outcome {
        case Uploaded(url) =>
          userData := userData.(avatar := url);
        case UploadFailed =>
      }
    }

    /** `handleUploadAvatar`.  Without a file nothing is sent and nothing
        changes.  With one, `uploading` is set before `PostAvatar` sends
        the request; afterwards `uploading` is false and `file` is cleared,
        and a successful upload changes only the avatar. */
    method HandleUploadAvatar(outcome: UploadOutcome)
      modifies this
      ensures isEditing == old(isEditing)
      ensures old(file).None? ==>
        && calls == old(calls) && file == old(file)
        && uploading == old(uploading) && userData == old(userData)
      ensures old(file).Some? ==>
        && calls == old(calls) + [UploadAvatar(user.id, old(file).value)]
        && !uploading && file == None
        && userData == if outcome.Uploaded? then old(userData).(avatar := outcome.url) else old(userData)
    {
      if file.None? {
        return;
      }
      uploading := true;
      PostAvatar(outcome);
      uploading := false;
      file := None;
    }

    /** `handleUpdateUserData`: nothing is sent unless the email passes the
        email check; a successful update replaces the profile with the
        server's and leaves edit mode. */
    method HandleUpdateUserData(outcome: UpdateOutcome)
      modifies this
      ensures file == old(file) && uploading == old(uploading)
      ensures !IsEmail(old(userData).email) ==>
        calls == old(calls) && userData == old(userData) && isEditing == old(isEditing)
      ensures IsEmail(old(userData).email) ==>
        && calls == old(calls) + [UpdateProfile(user.id, old(userData))]
        && userData == (if outcome.Updated? then outcome.data else old(userData))
        && isEditing == (if outcome.Updated? then false else old(isEditing))
    {
      if !IsEmail(userData.email) {
        return;
      }
      calls := calls + [UpdateProfile(user.id, userData)];
      match outcome
      case Updated(data) =>
        userData := data;
        isEditing := false;
      case UpdateFailed =>
    }

    /** `handleInputChange`: only the named field of the profile changes. */
    method HandleInputChange(f: Field, value: string)
      modifies this
      ensures userData == Edited(old(userData), f, value)
      ensures file == old(file) && uploading == old(uploading)
      ensures isEditing == old(isEditing) && calls == old(calls)
    {
      match f
      case Fullname => userData := userData.(fullname := value);
      case Email => userData := userData.(email := value);
      case Phone => userData := userData.(phone := value);
      case Bio => userData := userData.(bio := value);
    }
  }
}
