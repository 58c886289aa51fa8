/**
 * User profiles: the display name generated from an email address, the
 * get-or-create action with its unique-violation retry, the batch lookup,
 * and the display-name validation.  The `user_profiles` table is a map from
 * `user_id` (a unique column) to the row.
 */
module UserProfiles {
  import opened Wrappers
  import opened Text

  datatype UserProfile = UserProfile(id: string, userId: string, email: string, displayName: string)

  // ----- generateDisplayNameFromEmail -----

  /** `email.split('@')[0]`: everything before the first `@`. */
  function LocalPart(email: string): (r: string)
    ensures |r| <= |email| && r == email[..|r|]
    ensures '@' !in r
    ensures |r| < |email| ==> email[|r|] == '@'
    ensures '@' !in email ==> r == email
  {
    if email == [] || email[0] == '@' then [] else [email[0]] + LocalPart(email[1..])
  }

  /** The local part is the first piece of splitting on `@`. */
  lemma {:induction false} LocalPartIsFirstPiece(email: string)
    ensures LocalPart(email) == SplitOn(email, '@')[0]
  {
    if email != [] && email[0] != '@' {
      LocalPartIsFirstPiece(email[1..]);
    }
  }

  predicate IsNameSeparator(c: char) {
    c == '.' || c == '_' || c == '-'
  }

  /** `.replace(/[._-]/g, ' ')`. */
  function Spaced(s: string): (r: string)
    ensures |r| == |s|
    ensures forall i :: 0 <= i < |s| ==> r[i] == if IsNameSeparator(s[i]) then ' ' else s[i]
  {
    if s == [] then [] else [if IsNameSeparator(s[0]) then ' ' else s[0]] + Spaced(s[1..])
  }

  /** `word.charAt(0).toUpperCase() + word.slice(1).toLowerCase()`. */
  function Capitalize(w: string): (r: string)
    ensures |r| == |w|
  {
    if w == [] then [] else [UpperChar(w[0])] + Lower(w[1..])
  }

  function CapitalizeAll(ws: seq<string>): (rs: seq<string>)
    ensures |rs| == |ws|
  {
    if ws == [] then [] else [Capitalize(ws[0])] + CapitalizeAll(ws[1..])
  }

  /** `generateDisplayNameFromEmail`, step by step as the source chains it. */
  function DisplayNameFromEmail(email: string): string {
    Join(CapitalizeAll(SplitOn(Spaced(LocalPart(email)), ' ')), " ")
  }

  /**
   * A single left-to-right pass that upper-cases the first character after
   * the start or a space and lower-cases the others: the reference the
   * split/map/join chain is proved against.
   */
  function TitleCase(s: string, atWordStart: bool): (r: string)
    ensures |r| == |s|
  {
    if s == [] then []
    else if s[0] == ' ' then " " + TitleCase(s[1..], true)
    else [if atWordStart then UpperChar(s[0]) else LowerChar(s[0])] + TitleCase(s[1..], false)
  }

  /** What follows the first piece once the pieces are capitalised and joined. */
  function JoinedRest(ws: seq<string>): string
    requires |ws| >= 1
  {
    if |ws| == 1 then "" else " " + Join(CapitalizeAll(ws[1..]), " ")
  }

  lemma {:induction false} TitleCaseSplits(t: string)
    ensures TitleCase(t, true) == Capitalize(SplitOn(t, ' ')[0]) + JoinedRest(SplitOn(t, ' '))
    ensures TitleCase(t, false) == Lower(SplitOn(t, ' ')[0]) + JoinedRest(SplitOn(t, ' '))
  {
    if t != [] {
      var rest := SplitOn(t[1..], ' ');
      TitleCaseSplits(t[1..]);
      if t[0] == ' ' {
        var ws := SplitOn(t, ' ');
        assert ws == [""] + rest;
        assert ws[1..] == rest;
        JoinCapitalized(rest);
      } else {
        var ws := SplitOn(t, ' ');
        assert ws == [[t[0]] + rest[0]] + rest[1..];
        assert ([t[0]] + rest[0])[1..] == rest[0];
        assert JoinedRest(ws) == JoinedRest(rest);
      }
    }
  }

  /** Joining the capitalised pieces starts with the first one and goes on with the rest. */
  lemma JoinCapitalized(ws: seq<string>)
    requires |ws| >= 1
    ensures Join(CapitalizeAll(ws), " ") == Capitalize(ws[0]) + JoinedRest(ws)
  {
    var rest := CapitalizeAll(ws[1..]);
    assert CapitalizeAll(ws) == [Capitalize(ws[0])] + rest;
    JoinCons(Capitalize(ws[0]), rest, " ");
  }

  lemma JoinCons(x: string, xs: seq<string>, sep: string)
    ensures Join([x] + xs, sep) == if xs == [] then x else x + (sep + Join(xs, sep))
  {
    var ws := [x] + xs;
    assert ws[0] == x && ws[1..] == xs;
    if xs != [] {
      assert x + sep + Join(xs, sep) == x + (sep + Join(xs, sep));
    }
  }

  /** The display name is the title-cased local part with `.`, `_` and `-` read as spaces. */
  lemma DisplayNameIsTitleCase(email: string)
    ensures DisplayNameFromEmail(email) == TitleCase(Spaced(LocalPart(email)), true)
  {
    var s := Spaced(LocalPart(email));
    TitleCaseSplits(s);
    JoinCapitalized(SplitOn(s, ' '));
  }

  /**
   * The title-cased text character by character: spaces stay, a character
   * after the start or a space is upper-cased, every other one lower-cased.
   */
  lemma {:induction false} TitleCaseAt(s: string, atWordStart: bool, i: nat)
    requires i < |s|
    ensures TitleCase(s, atWordStart)[i]
            == if s[i] == ' ' then ' '
               else if (i == 0 && atWordStart) || (i > 0 && s[i - 1] == ' ') then UpperChar(s[i])
               else LowerChar(s[i])
  {
    if i > 0 {
      TitleCaseAt(s[1..], s[0] == ' ', i - 1);
    }
  }

  /** Only the part before the first `@` matters. */
  lemma DisplayNameIgnoresDomain(local: string, domain: string)
    requires '@' !in local
    ensures DisplayNameFromEmail(local + "@" + domain) == DisplayNameFromEmail(local)
  {
    LocalPartOfAddress(local, domain);
  }

  lemma {:induction false} LocalPartOfAddress(local: string, domain: string)
    requires '@' !in local
    ensures LocalPart(local + "@" + domain) == local
  {
    if local != [] {
      assert (local + "@" + domain)[1..] == local[1..] + "@" + domain;
      LocalPartOfAddress(local[1..], domain);
    }
  }

  // ----- the profiles table -----

  const NotAuthenticated: string := "User not authenticated"
  const NameTooShort: string := "Display name must be at least 2 characters"
  const NameTooLong: string := "Display name must be at most 50 characters"
  /** What `.single()` reports when the update matched no row. */
  const NoRowReturned: string := "JSON object requested, multiple (or no) rows returned"

  /** JavaScript truthiness of an optional string. */
  predicate Present(s: Option<string>) {
    s.Some? && s.value != ""
  }

  /** The display-name rule: the trimmed name has between 2 and 50 characters. */
  function CheckDisplayName(displayName: string): (r: Result<string>)
    ensures r.Success? <==> 2 <= |Trim(displayName)| <= 50
    ensures r.Success? ==> r.value == Trim(displayName)
    ensures r.Failure? ==> r.error == (if |Trim(displayName)| < 2 then NameTooShort else NameTooLong)
  {
    var trimmed := Trim(displayName);
    if trimmed == "" || |trimmed| < 2 then Failure(NameTooShort)
    else if |trimmed| > 50 then Failure(NameTooLong)
    else Success(trimmed)
  }

  class ProfileTable {
    var rows: map<string, UserProfile>

    /** Every row is filed under its own `user_id`. */
    ghost predicate Valid()
      reads this
    {
      forall u :: u in rows ==> rows[u].userId == u
    }

    constructor ()
      ensures rows == map[] && Valid()
    {
      rows := map[];
    }

    /**
     * `getOrCreateUserProfile`.  `raced` is a profile another request
     * inserts between this request's read and its insert; when it is for
     * the same user the insert hits the unique constraint and the profile is
     * read again.
     */
    method GetOrCreateUserProfile(userId: Option<string>, userEmail: Option<string>, newRowId: string,
                                  raced: Option<UserProfile>)
      returns (r: Result<UserProfile>)
      requires Valid()
      modifies this
      ensures Valid()
      ensures !Present(userId) || !Present(userEmail) ==> r == Failure(NotAuthenticated) && rows == old(rows)
      ensures Present(userId) && Present(userEmail) ==>
                r.Success? && userId.value in rows && rows[userId.value] == r.value
      ensures Present(userId) && Present(userEmail) && userId.value in old(rows) ==>
                r == Success(old(rows)[userId.value]) && rows == old(rows)
      ensures Present(userId) && Present(userEmail) && userId.value !in old(rows) ==>
                && r.Success? && r.value.userId == userId.value
                && rows == old(rows)[userId.value := r.value]
                  + (if raced.Some? && raced.value.userId !in old(rows) then map[raced.value.userId := raced.value] else map[])
                && (r.value == UserProfile(newRowId, userId.value, userEmail.value, DisplayNameFromEmail(userEmail.value))
                    || (raced.Some? && r.value == raced.value))
    {
      if !Present(userId) || !Present(userEmail) {
        return Failure(NotAuthenticated);
      }
      var uid := userId.value;
      if uid in rows {
        return Success(rows[uid]);
      }
      if raced.Some? && raced.value.userId !in rows {
        rows := rows[raced.value.userId := raced.value];
      }
      if uid in rows {
        // unique violation: read the row the other request created
        r := Success(rows[uid]);
      } else {
        var created := UserProfile(newRowId, uid, userEmail.value, DisplayNameFromEmail(userEmail.value));
        rows := rows[uid := created];
        r := Success(created);
      }
    }

    /** `getUserProfiles`: the profiles of the requested users that have one, keyed by `user_id`. */
    method GetUserProfiles(userIds: seq<string>) returns (m: map<string, UserProfile>)
      requires Valid()
      ensures userIds == [] ==> m == map[]
      ensures forall u :: u in m <==> u in userIds && u in rows
      ensures forall u :: u in m ==> m[u] == rows[u] && m[u].userId == u
    {
      m := map[];
      if |userIds| == 0 {
        return;
      }
      for i := 0 to |userIds|
        invariant forall u :: u in m <==> u in userIds[..i] && u in rows
        invariant forall u :: u in m ==> m[u] == rows[u]
      {
        if userIds[i] in rows {
          m := m[userIds[i] := rows[userIds[i]]];
        }
      }
      assert userIds[..|userIds|] == userIds;
    }

    /** `updateDisplayName`: authenticated callers only, the trimmed name, 2 to 50 characters. */
    method UpdateDisplayName(userId: Option<string>, displayName: string) returns (r: Result<UserProfile>)
      requires Valid()
      modifies this
      ensures Valid()
      ensures !Present(userId) ==> r == Failure(NotAuthenticated) && rows == old(rows)
      ensures Present(userId) && CheckDisplayName(displayName).Failure? ==>
                r == Failure(CheckDisplayName(displayName).error) && rows == old(rows)
      ensures Present(userId) && CheckDisplayName(displayName).Success? && userId.value !in old(rows) ==>
                r == Failure(NoRowReturned) && rows == old(rows)
      ensures Present(userId) && CheckDisplayName(displayName).Success? && userId.value in old(rows) ==>
                && rows == old(rows)[userId.value := old(rows)[userId.value].(displayName := Trim(displayName))]
                && r == Success(rows[userId.value])
    {
      if !Present(userId) {
        return Failure(NotAuthenticated);
      }
      var trimmed := Trim(displayName);
      if trimmed == "" || |trimmed| < 2 {
        return Failure(NameTooShort);
      }
      if |trimmed| > 50 {
        return Failure(NameTooLong);
      }
      if userId.value !in rows {
        return Failure(NoRowReturned);
      }
      var updated := rows[userId.value].(displayName := trimmed);
      rows := rows[userId.value := updated];
      r := Success(updated);
    }
  }
}
