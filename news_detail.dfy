/**
 * The single-news page (src/pages/NewsDetail/NewsDetail.jsx): the
 * `permissions` record its effect computes through `hasPermission`, the
 * update body, and the state `handleUpdateNews` changes.
 */
module NewsDetail {
  import opened Wrappers
  import opened Api
  import opened News
  import opened RoleUtils

  /** The `permissions` state record. */
  datatype Perms = Perms(canUpdate: bool, canDelete: bool)

  /** `news.author?.id === user.id` */
  predicate AuthoredBy(news: NewsItem, user: User)
  {
    news.author.Some? && news.author.value.id == user.id
  }

  /**
   * `loadPermissions()`: nothing happens without a user and a record;
   * otherwise both checks run, update first, each AND-ed with authorship,
   * and the record is replaced.
   */
  function LoadedPermissions(w: World, perms: Perms, user: Option<User>, news: Option<NewsItem>, token: Option<string>)
    : (r: (Perms, World))
    ensures user.None? || news.None? ==> r == (perms, w)
    ensures user.Some? && news.Some? ==>
      var (u, w1) := PermissionCheck(w, user, UpdateNews, token);
      var (d, w2) := PermissionCheck(w1, user, DeleteNews, token);
      && (r.0.canUpdate <==> u && AuthoredBy(news.value, user.value))
      && (r.0.canDelete <==> d && AuthoredBy(news.value, user.value))
      && r.1 == w2
    ensures Extends(w.cache, r.1.cache) && w.sent <= r.1.sent
  {
    if user.None? || news.None? then (perms, w)
    else
      var (u, w1) := PermissionCheck(w, user, UpdateNews, token);
      var (d, w2) := PermissionCheck(w1, user, DeleteNews, token);
      var owner := AuthoredBy(news.value, user.value);
      (Perms(u && owner, d && owner), w2)
  }

  /** Someone who did not write the record gets neither permission, whatever they are granted. */
  lemma OnlyTheAuthorMayEdit(w: World, perms: Perms, user: User, news: NewsItem, token: Option<string>)
    requires !AuthoredBy(news, user)
    ensures LoadedPermissions(w, perms, Some(user), Some(news), token).0 == Perms(false, false)
  {
  }

  /**
   * `canUpdate` in full: the user wrote the record and holds `update:news`
   * directly or through one of the role lists fetched in order.
   */
  lemma CanUpdateIsAuthorshipAndGrant(w: World, perms: Perms, user: User, news: NewsItem, token: Option<string>)
    ensures LoadedPermissions(w, perms, Some(user), Some(news), token).0.canUpdate <==>
      AuthoredBy(news, user) &&
      (DirectlyGranted(user, UpdateNews) || SomeListHas(FetchAll(w, RolesOf(user), token).0, UpdateNews))
  {
    PermissionCheckIsDirectOrRole(w, Some(user), UpdateNews, token);
  }

  /**
   * `canDelete` in full, where the role lists are those fetched after the
   * update check, which may already have filled the cache.
   */
  lemma CanDeleteIsAuthorshipAndGrant(w: World, perms: Perms, user: User, news: NewsItem, token: Option<string>)
    ensures var w1 := PermissionCheck(w, Some(user), UpdateNews, token).1;
      LoadedPermissions(w, perms, Some(user), Some(news), token).0.canDelete <==>
        AuthoredBy(news, user) &&
        (DirectlyGranted(user, DeleteNews) || SomeListHas(FetchAll(w1, RolesOf(user), token).0, DeleteNews))
  {
    var w1 := PermissionCheck(w, Some(user), UpdateNews, token).1;
    PermissionCheckIsDirectOrRole(w1, Some(user), DeleteNews, token);
  }

  /** An author granted both permissions directly gets both, and no request is sent. */
  lemma DirectGrantsNeedNoRequest(w: World, perms: Perms, user: User, news: NewsItem, token: Option<string>)
    requires AuthoredBy(news, user) && DirectlyGranted(user, UpdateNews) && DirectlyGranted(user, DeleteNews)
    ensures LoadedPermissions(w, perms, Some(user), Some(news), token) == (Perms(true, true), w)
  {
  }

  /**
   * The body of `handleUpdateNews`: a given image replaces the list,
   * otherwise the record's own `images` are sent back (and the key is left
   * out when the record has none); with no record loaded, reading
   * `news.images` throws and there is no body.
   */
  function DetailUpdateBody(form: NewsForm, news: Option<NewsItem>): (r: Option<NewsBody>)
    ensures r.None? <==> form.imageUrl == "" && news.None?
    ensures r.Some? ==> r.value.title == form.title && r.value.content == form.content
    ensures r.Some? && form.imageUrl != "" ==> r.value.images == Some([form.imageUrl])
    ensures r.Some? && form.imageUrl == "" ==> r.value.images == news.value.images
  {
    if form.imageUrl != "" then Some(NewsBody(form.title, form.content, Some([form.imageUrl])))
    else if news.None? then None
    else Some(NewsBody(form.title, form.content, news.value.images))
  }

  /** The edit form opens on the record's title and content and its first image, or `''`. */
  lemma EditFormStartsFromRecord(news: NewsItem)
    ensures var f := InitialForm(Some(EditCopy(news)));
      && f.title == news.title && f.content == news.content
      && f.imageUrl == (if news.images.Some? && |news.images.value| > 0 then news.images.value[0] else "")
  {
  }

  /**
   * Saving the edit form untouched keeps the record's images when its first
   * image is `''` or missing, and keeps only the first image otherwise.
   */
  lemma UnchangedEditKeepsImages(news: NewsItem)
    ensures var b := DetailUpdateBody(InitialForm(Some(EditCopy(news))), Some(news));
      && b.Some? && b.value.title == news.title && b.value.content == news.content
      && (news.images.Some? && |news.images.value| > 0 && news.images.value[0] != "" ==>
            b.value.images == Some([news.images.value[0]]))
      && (news.images.None? || news.images.value == [] || news.images.value[0] == "" ==>
            b.value.images == news.images)
  {
  }

  /** What `handleUpdateNews` puts in `error`. */
  datatype DetailError = NoRecord | UpdateRejected | NetworkFailure

  /** The PATCH this page sends to the record at its route parameter `id`. */
  datatype PatchRequest = PatchRequest(id: string, bearer: Option<string>, body: NewsBody)

  /** The backend's answer: the updated record, a non-ok status, or a failure. */
  datatype PatchReply = Updated(item: NewsItem) | PatchNotOk | PatchThrows

  datatype Detail = Detail(
    news: Option<NewsItem>,
    error: Option<DetailError>,
    isEditing: bool,
    permissions: Perms,
    sent: seq<PatchRequest>)

  /** `handleUpdateNews(newsData)` */
  function AfterUpdate(d: Detail, id: string, token: Option<string>, form: NewsForm, reply: PatchReply): (d': Detail)
    ensures DetailUpdateBody(form, d.news).None? ==> d' == d.(error := Some(NoRecord))
    ensures DetailUpdateBody(form, d.news).Some? ==>
      d'.sent == d.sent + [PatchRequest(id, token, DetailUpdateBody(form, d.news).value)]
    ensures DetailUpdateBody(form, d.news).Some? && reply.Updated? ==>
      d' == d.(news := Some(reply.item), isEditing := false, sent := d'.sent)
    ensures DetailUpdateBody(form, d.news).Some? && !reply.Updated? ==>
      d' == d.(error := Some(if reply.PatchNotOk? then UpdateRejected else NetworkFailure), sent := d'.sent)
    ensures d'.permissions == d.permissions
  {
    match DetailUpdateBody(form, d.news)
    case None => d.(error := Some(NoRecord))
    case Some(body) =>
      var d1 := d.(sent := d.sent + [PatchRequest(id, token, body)]);
      match reply
      case Updated(item) => d1.(news := Some(item), isEditing := false)
      case PatchNotOk => d1.(error := Some(UpdateRejected))
      case PatchThrows => d1.(error := Some(NetworkFailure))
  }

  /** The page's component state; permission checks go through `resolver`. */
  class DetailPage {
    var news: Option<NewsItem>
    var error: Option<DetailError>
    var isEditing: bool
    var permissions: Perms
    var sent: seq<PatchRequest>
    const resolver: Resolver

    function State(): Detail
      reads this
    {
      Detail(news, error, isEditing, permissions, sent)
    }

    /** The page's `useState` initialisers: no record yet, both permissions false. */
    constructor (resolver: Resolver)
      ensures this.resolver == resolver
      ensures State() == Detail(None, None, false, Perms(false, false), [])
    {
      this.resolver := resolver;
      news := None;
      error := None;
      isEditing := false;
      permissions := Perms(false, false);
      sent := [];
    }

    /** The effect's `loadPermissions()` for the current `user` and `token`. */
    method LoadPermissions(user: Option<User>, token: Option<string>)
      modifies this`permissions, resolver, resolver.storage
      ensures (permissions, resolver.State()) ==
              LoadedPermissions(old(resolver.State()), old(permissions), user, news, token)
    {
      if user.None? || news.None? {
        return;
      }
      var canUpdate := resolver.HasPermission(user, UpdateNews, token);
      canUpdate := canUpdate && news.value.author.Some? && news.value.author.value.id == user.value.id;
      var canDelete := resolver.HasPermission(user, DeleteNews, token);
      canDelete := canDelete && news.value.author.Some? && news.value.author.value.id == user.value.id;
      permissions := Perms(canUpdate, canDelete);
    }

    method HandleUpdateNews(id: string, token: Option<string>, newsData: NewsForm, reply: PatchReply)
      modifies this
      ensures State() == AfterUpdate(old(State()), id, token, newsData, reply)
    {
      var images;
      if newsData.imageUrl != "" {
        images := Some([newsData.imageUrl]);
      } else if news.None? {
        error := Some(NoRecord);
        return;
      } else {
        images := news.value.images;
      }
      sent := sent + [PatchRequest(id, token, NewsBody(newsData.title, newsData.content, images))];
      match reply {
        case Updated(item) =>
          news := Some(item);
          isEditing := false;
        case PatchNotOk =>
          error := Some(UpdateRejected);
        case PatchThrows =>
          error := Some(NetworkFailure);
      }
    }
  }
}
