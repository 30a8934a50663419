/** The admin dashboard: a projects tab listing cards that open the project
    form, and a profile tab editing the owner's profile. Its state is class
    `Dashboard`; the record conversions (loading a profile, the card preview,
    the upsert record) are functions. The backend's answers (the signed-in
    user, fetched rows, storage and write results) and the clock are
    parameters. */
module Admin {
  import opened Js
  import Storage
  import Projects

  datatype Tab = ProjectsTab | ProfileTab

  /** The social-link object, keyed by network. */
  type Links = map<string, string>

  const GitHub := "github"
  const LinkedIn := "linkedin"

  /** `{ github: '', linkedin: '' }`. */
  const DefaultLinks: Links := map[GitHub := "", LinkedIn := ""]

  /** A row of the `profiles` table as fetched; a null column is `None`. */
  datatype ProfileRow = ProfileRow(
    fullName: Option<string>,
    bio: Option<string>,
    email: Option<string>,
    avatarUrl: Option<string>,
    socialLinks: Option<Links>)

  /** `profileData`: the e-mail is always text and the links always an
      object; name, bio and avatar are kept as fetched. */
  datatype Profile = Profile(
    fullName: Option<string>,
    bio: Option<string>,
    email: string,
    avatarUrl: Option<string>,
    socialLinks: Links)

  const EmptyProfile := Profile(Some(""), Some(""), "", Some(""), DefaultLinks)

  /** The record upserted into `profiles`. */
  datatype ProfileUpsert = ProfileUpsert(
    id: string,
    fullName: Option<string>,
    bio: Option<string>,
    email: string,
    avatarUrl: Option<string>,
    socialLinks: Links,
    updatedAt: string)

  const ProfileSavedNotice := "Perfil atualizado com sucesso!"
  const ProfileErrorNotice := "Erro ao atualizar perfil"

  const DescriptionPreviewLength := 80
  const TagPreviewCount := 3

  /** `{ ...data, social_links: data.social_links || {...}, email: data.email || '' }`. */
  function NormaliseProfile(row: ProfileRow): (p: Profile)
    ensures p.fullName == row.fullName && p.bio == row.bio && p.avatarUrl == row.avatarUrl
    ensures p.email == OrEmpty(row.email)
    ensures p.socialLinks == (if row.socialLinks.Some? then row.socialLinks.value else DefaultLinks)
    ensures row.socialLinks.None? ==> GitHub in p.socialLinks && LinkedIn in p.socialLinks
  {
    Profile(
      fullName := row.fullName,
      bio := row.bio,
      email := OrEmpty(row.email),
      avatarUrl := row.avatarUrl,
      socialLinks := if row.socialLinks.Some? then row.socialLinks.value else DefaultLinks)
  }

  /** The row the backend holds after an upsert, read back by the next load:
      the columns sent are stored as they are, so loading the row gives back
      the profile that was saved. */
  function StoredRow(u: ProfileUpsert): (row: ProfileRow)
    ensures NormaliseProfile(row) == Profile(u.fullName, u.bio, u.email, u.avatarUrl, u.socialLinks)
  {
    ProfileRow(u.fullName, u.bio, Some(u.email), u.avatarUrl, Some(u.socialLinks))
  }

  /** `{ ...profileData, social_links: { ...profileData.social_links, [key]: value } }`. */
  function WithLink(p: Profile, key: string, value: string): (r: Profile)
    ensures key in r.socialLinks && r.socialLinks[key] == value
    ensures r.socialLinks.Keys == p.socialLinks.Keys + {key}
    ensures forall k :: k in p.socialLinks && k != key ==> r.socialLinks[k] == p.socialLinks[k]
    ensures r.(socialLinks := p.socialLinks) == p
  {
    p.(socialLinks := p.socialLinks[key := value])
  }

  /** `s.substring(0, n)` on a string, `s.slice(0, n)` on an array: the
      first `n` elements, or all of them when there are fewer. */
  function Take<T>(s: seq<T>, n: nat): (r: seq<T>)
    ensures |r| == (if |s| <= n then |s| else n)
    ensures r == s[..|r|]
  {
    if |s| <= n then s else s[..n]
  }

  /** What a project card shows: the first 80 characters of the description
      followed by "...", and the first three tags. A missing description or
      tech stack shows nothing before the dots, and no tags. */
  datatype Card = Card(text: string, tags: seq<string>)

  function CardPreview(p: Projects.Project): (c: Card)
    ensures c.text == Take(OrEmpty(p.description), DescriptionPreviewLength) + "..."
    ensures c.tags == Take(if p.techStack.Some? then p.techStack.value else [], TagPreviewCount)
  {
    var shown := match p.description
      case None => ""
      case Some(d) => d[..if |d| <= DescriptionPreviewLength then |d| else DescriptionPreviewLength];
    var tags := match p.techStack
      case None => []
      case Some(ts) => ts[..if |ts| <= TagPreviewCount then |ts| else TagPreviewCount];
    Card(shown + "...", tags)
  }

  /** What one profile save does: the upload step, the upsert (if the handler
      gets that far) and whether it went through. */
  datatype SaveResult = SaveResult(upload: Storage.UploadResult, upsert: Option<ProfileUpsert>, saved: bool)

  /** The whole of `handleUpdateProfile`: the avatar is uploaded, when one was
      chosen, even before the user is looked at; a failed upload or a missing
      user stops it; the upsert keeps the current avatar URL when there is no
      new file. */
  function ProfileSave(
    p: Profile, avatarFile: Option<Storage.File>, userId: Option<string>,
    nonce: string, upload: Storage.UploadOutcome, upsertOk: bool, now: string): (r: SaveResult)
    ensures r.upload == Storage.Upload(avatarFile, "avatar-", nonce, upload)
    ensures r.upsert.Some? <==> !r.upload.UploadFailed? && userId.Some?
    ensures r.saved <==> r.upsert.Some? && upsertOk
    ensures r.upsert.Some? ==>
      var u := r.upsert.value;
      && u.id == userId.value && u.updatedAt == now
      && u.avatarUrl == (if avatarFile.None? then p.avatarUrl else Some(upload.publicUrl))
      // what is saved is what the next load shows, apart from the avatar
      && NormaliseProfile(StoredRow(u)) == p.(avatarUrl := u.avatarUrl)
  {
    var up := Storage.Upload(avatarFile, "avatar-", nonce, upload);
    if up.UploadFailed? || userId.None? then SaveResult(up, None, false)
    else
      var avatarUrl := if up.NoFile? then p.avatarUrl else Some(up.url);
      var u := ProfileUpsert(userId.value, p.fullName, p.bio, p.email, avatarUrl, p.socialLinks, now);
      assert OrEmpty(Some(p.email)) == p.email;
      SaveResult(up, Some(u), upsertOk)
  }

  /** What a profile save works on: the profile and the chosen avatar as
      they were when the user pressed save (the values the handler's closure
      holds). */
  datatype ProfileDraft = ProfileDraft(profile: Profile, avatar: Option<Storage.File>)

  /** The dashboard page. */
  class Dashboard {
    var projects: seq<Projects.Project>
    var activeTab: Tab
    var isModalOpen: bool
    var editingProject: Option<Projects.Project>
    var profileData: Profile
    var avatarFile: Option<Storage.File>
    var avatarPreview: Option<string>
    var savingProfile: bool
    /** The draft the profile save in progress works on, if there is one. */
    var pending: Option<ProfileDraft>

    constructor ()
      ensures projects == [] && activeTab == ProjectsTab
      ensures !isModalOpen && editingProject == None
      ensures profileData == EmptyProfile
      ensures avatarFile == None && avatarPreview == None && !savingProfile
      ensures pending == None
    {
      projects := [];
      activeTab := ProjectsTab;
      isModalOpen := false;
      editingProject := None;
      profileData := EmptyProfile;
      avatarFile := None;
      avatarPreview := None;
      savingProfile := false;
      pending := None;
    }

    /** A click on a navigation entry shows exactly that tab. */
    method SelectTab(tab: Tab)
      modifies this
      ensures activeTab == tab
      ensures projects == old(projects) && isModalOpen == old(isModalOpen)
      ensures editingProject == old(editingProject) && profileData == old(profileData)
      ensures avatarFile == old(avatarFile) && avatarPreview == old(avatarPreview)
      ensures savingProfile == old(savingProfile)
      ensures pending == old(pending)
    {
      activeTab := tab;
    }

    /** `handleAddProject`: the form opens empty. */
    method AddProject()
      modifies this
      ensures editingProject == None && isModalOpen
      ensures Projects.FormFor(editingProject) == Projects.EmptyForm
      ensures projects == old(projects) && activeTab == old(activeTab) && profileData == old(profileData)
      ensures avatarFile == old(avatarFile) && avatarPreview == old(avatarPreview)
      ensures savingProfile == old(savingProfile)
      ensures pending == old(pending)
    {
      editingProject := None;
      isModalOpen := true;
    }

    /** `handleEditProject`: the form opens on that project. */
    method EditProject(project: Projects.Project)
      modifies this
      ensures editingProject == Some(project) && isModalOpen
      ensures projects == old(projects) && activeTab == old(activeTab) && profileData == old(profileData)
      ensures avatarFile == old(avatarFile) && avatarPreview == old(avatarPreview)
      ensures savingProfile == old(savingProfile)
      ensures pending == old(pending)
    {
      editingProject := Some(project);
      isModalOpen := true;
    }

    /** The form's `onClose`: only the modal flag changes; the project last
        edited stays selected. */
    method CloseModal()
      modifies this
      ensures !isModalOpen
      ensures editingProject == old(editingProject)
      ensures projects == old(projects) && activeTab == old(activeTab) && profileData == old(profileData)
      ensures avatarFile == old(avatarFile) && avatarPreview == old(avatarPreview)
      ensures savingProfile == old(savingProfile)
      ensures pending == old(pending)
    {
      isModalOpen := false;
    }

    /** `fetchProjects` (also the form's `onSave`): the fetched rows replace
        the list; a failed fetch leaves it as it was. */
    method ReceiveProjects(fetched: Option<seq<Projects.Project>>)
      modifies this
      ensures projects == (if fetched.Some? then fetched.value else old(projects))
      ensures activeTab == old(activeTab) && isModalOpen == old(isModalOpen)
      ensures editingProject == old(editingProject) && profileData == old(profileData)
      ensures avatarFile == old(avatarFile) && avatarPreview == old(avatarPreview)
      ensures savingProfile == old(savingProfile)
      ensures pending == old(pending)
    {
      if fetched.Some? {
        projects := fetched.value;
      }
    }

    /** `fetchProfile`: without a signed-in user, or without a row, nothing
        changes; otherwise the row is normalised into `profileData`, and the
        avatar preview is set only when the row has an avatar URL. */
    method ReceiveProfile(signedIn: bool, row: Option<ProfileRow>)
      modifies this
      ensures profileData == (if signedIn && row.Some? then NormaliseProfile(row.value) else old(profileData))
      ensures avatarPreview == (if signedIn && row.Some? && Truthy(row.value.avatarUrl) then row.value.avatarUrl
                                else old(avatarPreview))
      ensures projects == old(projects) && activeTab == old(activeTab) && isModalOpen == old(isModalOpen)
      ensures editingProject == old(editingProject) && avatarFile == old(avatarFile)
      ensures savingProfile == old(savingProfile)
      ensures pending == old(pending)
    {
      if !signedIn {
        return;
      }
      if row.Some? {
        profileData := NormaliseProfile(row.value);
        if Truthy(row.value.avatarUrl) {
          avatarPreview := row.value.avatarUrl;
        }
      }
    }

    method EditFullName(value: string)
      modifies this
      ensures profileData == old(profileData).(fullName := Some(value))
      ensures projects == old(projects) && activeTab == old(activeTab) && isModalOpen == old(isModalOpen)
      ensures editingProject == old(editingProject) && avatarFile == old(avatarFile)
      ensures avatarPreview == old(avatarPreview) && savingProfile == old(savingProfile)
      ensures pending == old(pending)
    {
      profileData := profileData.(fullName := Some(value));
    }

    method EditBio(value: string)
      modifies this
      ensures profileData == old(profileData).(bio := Some(value))
      ensures projects == old(projects) && activeTab == old(activeTab) && isModalOpen == old(isModalOpen)
      ensures editingProject == old(editingProject) && avatarFile == old(avatarFile)
      ensures avatarPreview == old(avatarPreview) && savingProfile == old(savingProfile)
      ensures pending == old(pending)
    {
      profileData := profileData.(bio := Some(value));
    }

    method EditEmail(value: string)
      modifies this
      ensures profileData == old(profileData).(email := value)
      ensures projects == old(projects) && activeTab == old(activeTab) && isModalOpen == old(isModalOpen)
      ensures editingProject == old(editingProject) && avatarFile == old(avatarFile)
      ensures avatarPreview == old(avatarPreview) && savingProfile == old(savingProfile)
      ensures pending == old(pending)
    {
      profileData := profileData.(email := value);
    }

    /** The GitHub and LinkedIn inputs: only that key of the links changes. */
    method EditSocialLink(key: string, value: string)
      requires key == GitHub || key == LinkedIn
      modifies this
      ensures profileData == WithLink(old(profileData), key, value)
      ensures projects == old(projects) && activeTab == old(activeTab) && isModalOpen == old(isModalOpen)
      ensures editingProject == old(editingProject) && avatarFile == old(avatarFile)
      ensures avatarPreview == old(avatarPreview) && savingProfile == old(savingProfile)
      ensures pending == old(pending)
    {
      profileData := profileData.(socialLinks := profileData.socialLinks[key := value]);
    }

    /** `handleAvatarChange`: a chosen file becomes the pending avatar and is
        previewed through its object URL; an empty choice changes nothing. */
    method ChooseAvatar(file: Option<Storage.File>, objectUrl: string)
      modifies this
      ensures file.Some? ==> avatarFile == file && avatarPreview == Some(objectUrl)
      ensures file.None? ==> avatarFile == old(avatarFile) && avatarPreview == old(avatarPreview)
      ensures projects == old(projects) && activeTab == old(activeTab) && isModalOpen == old(isModalOpen)
      ensures editingProject == old(editingProject) && profileData == old(profileData)
      ensures savingProfile == old(savingProfile)
      ensures pending == old(pending)
    {
      if file.Some? {
        avatarFile := file;
        avatarPreview := Some(objectUrl);
      }
    }

    /** `handleUpdateProfile` up to its first await; the save button is
        disabled while saving. The save works on the profile and the avatar
        as they are now, whatever is edited or chosen later. */
    method BeginProfileSave()
      requires !savingProfile
      modifies this
      ensures savingProfile
      ensures pending == Some(ProfileDraft(profileData, avatarFile))
      ensures projects == old(projects) && activeTab == old(activeTab) && isModalOpen == old(isModalOpen)
      ensures editingProject == old(editingProject) && profileData == old(profileData)
      ensures avatarFile == old(avatarFile) && avatarPreview == old(avatarPreview)
    {
      savingProfile := true;
      pending := Some(ProfileDraft(profileData, avatarFile));
    }

    /** The rest of `handleUpdateProfile`: returns what was sent and the
        notice shown, and is no longer saving whether or not it worked. The
        uploaded avatar URL is not written back into `profileData`. */
    method CompleteProfileSave(userId: Option<string>, nonce: string, upload: Storage.UploadOutcome,
                               upsertOk: bool, now: string)
      returns (r: SaveResult, notice: string)
      requires savingProfile && pending.Some?
      modifies this
      ensures var d := old(pending).value; r == ProfileSave(d.profile, d.avatar, userId, nonce, upload, upsertOk, now)
      ensures notice == (if r.saved then ProfileSavedNotice else ProfileErrorNotice)
      ensures !savingProfile && pending == None
      ensures projects == old(projects) && activeTab == old(activeTab) && isModalOpen == old(isModalOpen)
      ensures editingProject == old(editingProject) && profileData == old(profileData)
      ensures avatarFile == old(avatarFile) && avatarPreview == old(avatarPreview)
    {
      var draft := pending.value;
      r := ProfileSave(draft.profile, draft.avatar, userId, nonce, upload, upsertOk, now);
      notice := if r.saved then ProfileSavedNotice else ProfileErrorNotice;
      savingProfile, pending := false, None;
    }
  }

  /** Editing the profile while a save is in progress does not change what
      is sent: the upsert carries the bio as it was when save was pressed. */
  method EditWhileSaving(userId: string)
  {
    var page := new Dashboard();
    page.EditBio("Developer");
    page.BeginProfileSave();
    page.EditBio("Other");
    var r, notice := page.CompleteProfileSave(Some(userId), "0.5", Storage.UploadRejected, true, "now");
    assert r.upsert.Some? && r.upsert.value.bio == Some("Developer");
    assert notice == ProfileSavedNotice && page.profileData.bio == Some("Other");
  }
}
