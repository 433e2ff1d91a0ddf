/** The routes of `server.js` that change stored state: like, dislike and
    add-favorite, over an in-memory store standing for the two MongoDB
    collections, each behind `authenticateToken`. */
module Api {
  import opened Wrappers
  import opened Records
  import opened Middleware

  datatype Vote = Like | Dislike

  /** `$inc` by one on the vote's counter of one document. */
  function Inc(loc: Location, v: Vote): (r: Location)
    ensures r.likes + r.dislikes == loc.likes + loc.dislikes + 1
    ensures r.likes >= loc.likes && r.dislikes >= loc.dislikes
    ensures v == Like ==> r.likes == loc.likes + 1 && r.dislikes == loc.dislikes
    ensures v == Dislike ==> r.dislikes == loc.dislikes + 1 && r.likes == loc.likes
    ensures r.(likes := loc.likes, dislikes := loc.dislikes) == loc
  {
    match v
    case Like => loc.(likes := loc.likes + 1)
    case Dislike => loc.(dislikes := loc.dislikes + 1)
  }

  function Count(votes: seq<Vote>, v: Vote): nat
    decreases |votes|
  {
    if votes == [] then 0 else (if votes[0] == v then 1 else 0) + Count(votes[1..], v)
  }

  /** A document after a series of successful like/dislike requests, in order. */
  function Replay(loc: Location, votes: seq<Vote>): Location
    decreases |votes|
  {
    if votes == [] then loc else Replay(Inc(loc, votes[0]), votes[1..])
  }

  /** Each counter grows by exactly the number of requests for it; nothing
      else in the document changes. */
  lemma {:induction false} ReplayCounts(loc: Location, votes: seq<Vote>)
    ensures Replay(loc, votes).likes == loc.likes + Count(votes, Like)
    ensures Replay(loc, votes).dislikes == loc.dislikes + Count(votes, Dislike)
    ensures Replay(loc, votes).(likes := loc.likes, dislikes := loc.dislikes) == loc
    decreases |votes|
  {
    if votes != [] {
      ReplayCounts(Inc(loc, votes[0]), votes[1..]);
    }
  }

  /** A document created with the schema defaults shows exactly the votes it received. */
  lemma NewLocationCountsVotes(id: string, src: string, title: string, description: string,
                               typeicon: string, types: seq<string>,
                               latitude: real, longitude: real, url: string, votes: seq<Vote>)
    ensures var loc := Replay(NewLocation(id, src, title, description, typeicon, types, latitude, longitude, url), votes);
      loc.likes == Count(votes, Like) && loc.dislikes == Count(votes, Dislike)
  {
    ReplayCounts(NewLocation(id, src, title, description, typeicon, types, latitude, longitude, url), votes);
  }

  lemma {:induction false} CountAppend(votes: seq<Vote>, more: seq<Vote>, v: Vote)
    ensures Count(votes + more, v) == Count(votes, v) + Count(more, v)
    decreases |votes|
  {
    if votes == [] {
      assert votes + more == more;
    } else {
      assert (votes + more)[1..] == votes[1..] + more;
      CountAppend(votes[1..], more, v);
    }
  }

  /** Counters never decrease: later requests only add to them. */
  lemma CountersNeverDecrease(loc: Location, votes: seq<Vote>, more: seq<Vote>)
    ensures Replay(loc, votes + more).likes >= Replay(loc, votes).likes
    ensures Replay(loc, votes + more).dislikes >= Replay(loc, votes).dislikes
  {
    ReplayCounts(loc, votes);
    ReplayCounts(loc, votes + more);
    CountAppend(votes, more, Like);
    CountAppend(votes, more, Dislike);
  }

  /** A response: a document as JSON (status 200), the add-favorite success
      message (status 200), or an error status with its text. */
  datatype Reply = Json(location: Location) | Saved | Error(status: nat, text: string)

  predicate Distinct(s: seq<string>)
  {
    forall i, j :: 0 <= i < j < |s| ==> s[i] != s[j]
  }

  /** The like or dislike handler: `findByIdAndUpdate` with `$inc` and
      `{ new: true }`, 404 when no document has the id. */
  ghost predicate VoteEffect(before: map<string, Location>, after: map<string, Location>,
                             id: string, v: Vote, reply: Reply)
  {
    if id in before then after == before[id := Inc(before[id], v)] && reply == Json(after[id])
    else after == before && reply == Error(404, "Location not found")
  }

  /** The add-favorite handler: 404 for an unknown user, 400 when the id is
      already a favorite, otherwise the id is appended. */
  ghost predicate FavoriteEffect(before: map<string, seq<string>>, after: map<string, seq<string>>,
                                 userId: string, locationId: string, reply: Reply)
  {
    if userId !in before then after == before && reply == Error(404, "User not found")
    else if locationId in before[userId] then after == before && reply == Error(400, "Location already in favorites")
    else after == before[userId := before[userId] + [locationId]] && reply == Saved
  }

  /** A favorite saved twice: the second request is rejected with 400 and
      changes nothing. */
  lemma SecondSaveRejected(f0: map<string, seq<string>>, f1: map<string, seq<string>>, f2: map<string, seq<string>>,
                           userId: string, locationId: string, r1: Reply, r2: Reply)
    requires userId in f0
    requires FavoriteEffect(f0, f1, userId, locationId, r1)
    requires FavoriteEffect(f1, f2, userId, locationId, r2)
    ensures r2 == Error(400, "Location already in favorites") && f2 == f1
    ensures locationId in f2[userId]
  {
  }

  /** Adding a favorite keeps every user's list free of duplicates. */
  lemma FavoriteKeepsDistinct(before: map<string, seq<string>>, after: map<string, seq<string>>,
                              userId: string, locationId: string, reply: Reply)
    requires forall u :: u in before ==> Distinct(before[u])
    requires FavoriteEffect(before, after, userId, locationId, reply)
    ensures forall u :: u in after ==> Distinct(after[u])
    ensures after.Keys == before.Keys
  {
  }

  /** The protected POST routes. */
  datatype Route = LikeRoute(locationId: string) | DislikeRoute(locationId: string) | FavoriteRoute(locationId: string)

  /** The two collections: location documents by id and, for each user id,
      that user's favorites list. */
  class Store {
    var locations: map<string, Location>
    var favorites: map<string, seq<string>>

    ghost predicate Valid()
      reads this
    {
      (forall id :: id in locations ==> locations[id].id == id) &&
      (forall u :: u in favorites ==> Distinct(favorites[u]))
    }

    constructor ()
      ensures Valid() && locations == map[] && favorites == map[]
    {
      locations := map[];
      favorites := map[];
    }

    /** `Location.findByIdAndUpdate(id, { $inc: ... }, { new: true })`. */
    method FindByIdAndIncrement(id: string, v: Vote) returns (updated: Option<Location>)
      requires Valid()
      modifies this
      ensures Valid() && favorites == old(favorites)
      ensures id in old(locations) ==> locations == old(locations)[id := Inc(old(locations)[id], v)] && updated == Some(locations[id])
      ensures id !in old(locations) ==> locations == old(locations) && updated == None
    {
      if id in locations {
        locations := locations[id := Inc(locations[id], v)];
        updated := Some(locations[id]);
      } else {
        updated := None;
      }
    }

    /** POST /locations/:locationId/like, once authenticated. */
    method LikeLocation(locationId: string) returns (reply: Reply)
      requires Valid()
      modifies this
      ensures Valid() && favorites == old(favorites)
      ensures VoteEffect(old(locations), locations, locationId, Like, reply)
    {
      var updated := FindByIdAndIncrement(locationId, Like);
      if updated.None? {
        return Error(404, "Location not found");
      }
      reply := Json(updated.value);
    }

    /** POST /locations/:locationId/dislike, once authenticated. */
    method DislikeLocation(locationId: string) returns (reply: Reply)
      requires Valid()
      modifies this
      ensures Valid() && favorites == old(favorites)
      ensures VoteEffect(old(locations), locations, locationId, Dislike, reply)
    {
      var updated := FindByIdAndIncrement(locationId, Dislike);
      if updated.None? {
        return Error(404, "Location not found");
      }
      reply := Json(updated.value);
    }

    /** POST /favorites/:locationId for the authenticated user `userId`. */
    method AddFavorite(userId: string, locationId: string) returns (reply: Reply)
      requires Valid()
      modifies this
      ensures Valid() && locations == old(locations)
      ensures FavoriteEffect(old(favorites), favorites, userId, locationId, reply)
    {
      if userId !in favorites {
        return Error(404, "User not found");
      }
      if locationId in favorites[userId] {
        return Error(400, "Location already in favorites");
      }
      ghost var before := favorites;
      favorites := favorites[userId := favorites[userId] + [locationId]];
      reply := Saved;
      FavoriteKeepsDistinct(before, favorites, userId, locationId, reply);
    }

    /** A protected request: `authenticateToken` first, the route's handler
        only for an authenticated user. */
    method Post(route: Route, authorization: Option<string>, verify: string -> Option<string>) returns (reply: Reply)
      requires Valid()
      modifies this
      ensures Valid()
      ensures !AuthenticateToken(authorization, verify).Authenticated? ==>
        locations == old(locations) && favorites == old(favorites)
      ensures AuthenticateToken(authorization, verify).Unauthorized? ==> reply == Error(401, "Unauthorized")
      ensures AuthenticateToken(authorization, verify).Forbidden? ==> reply == Error(403, "Forbidden")
      ensures AuthenticateToken(authorization, verify).Authenticated? ==>
        match route
        case LikeRoute(id) =>
          VoteEffect(old(locations), locations, id, Like, reply) && favorites == old(favorites)
        case DislikeRoute(id) =>
          VoteEffect(old(locations), locations, id, Dislike, reply) && favorites == old(favorites)
        case FavoriteRoute(id) =>
          FavoriteEffect(old(favorites), favorites, AuthenticateToken(authorization, verify).userId, id, reply) &&
          locations == old(locations)
    {
      var auth := AuthenticateToken(authorization, verify);
      match auth
      case Unauthorized => reply := Error(401, "Unauthorized");
      case Forbidden => reply := Error(403, "Forbidden");
      case Authenticated(userId) =>
        match route
        case LikeRoute(id) => reply := LikeLocation(id);
        case DislikeRoute(id) => reply := DislikeLocation(id);
        case FavoriteRoute(id) => reply := AddFavorite(userId, id);
    }
  }
}
