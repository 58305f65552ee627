/** The user workflows of rexos/user.go: reading the current user's details and licenses, and
    merging an update into the stored user description.

    The resource wrappers are one oracle, `answer`, that gives the result of each GET or PATCH
    a workflow makes; JSON decoding and `gjson` lookups are oracles too. Each workflow returns
    the calls it made, in order. */
module User {
  import opened Wrappers
  import opened Codec
  import opened Http
  import opened Service

  datatype Address = Address(
    zip: Option<string>,
    city: Option<string>,
    address: Option<string>,
    state: Option<string>,
    countryName: Option<string>,
    country: Option<string>)

  datatype AddressField = Zip | City | Street | State | CountryName | Country

  function Field(a: Address, f: AddressField): Option<string> {
    match f
    case Zip => a.zip
    case City => a.city
    case Street => a.address
    case State => a.state
    case CountryName => a.countryName
    case Country => a.country
  }

  /** Detailed user information; every field is optional. */
  datatype UserInformation = UserInformation(
    firstName: Option<string>,
    lastName: Option<string>,
    address: Option<Address>,
    email: Option<string>,
    company: Option<string>,
    uid: Option<string>)

  const NoInformation := UserInformation(None, None, None, None, None, None)

  /** The body of the user-description resource. */
  datatype UserDescription = UserDescription(address: Address, company: string, uid: string)

  /** The body of the user resource update. */
  datatype UserInfo = UserInfo(email: string, firstName: string, lastName: string)

  datatype License = License(name: string, activationDate: string, expirationDate: string)

  datatype UserLicenses = UserLicenses(userLicenses: seq<License>)

  /** The payloads the workflows PATCH. */
  datatype UserPatch = DescriptionPatch(description: UserDescription) | InfoPatch(info: UserInfo)

  /** The backend the workflows talk to. `unmarshalInformation` writes the fields a body carries
      over an existing record. */
  datatype UserBackend = UserBackend(
    answer: HalCall<UserPatch> -> HalResult,
    lookup: JsonLookup,
    unmarshalInformation: (Bytes, UserInformation) -> UserInformation,
    unmarshalDescription: Bytes -> UserDescription,
    unmarshalLicense: Bytes -> License,
    embeddedLicenses: Bytes -> seq<Bytes>)

  const CurrentUserFailed := "Could not get current user. Please make sure you have the correct access rights."
  const UserInformationFailed := "Could not get user information. Please make sure you have the correct access rights."
  const UserDescriptionFailed := "Could not get user description. Please make sure you have the correct access rights."
  const CurrentDescriptionFailed := "Could not get current user description. Please make sure you have the correct access rights."
  const DescriptionUpdateFailed := "Could not update user description. Please make sure you have the correct access rights."
  const InformationUpdateFailed := "Could not update user information. Please make sure you have the correct access rights."
  const UserLicensesFailed := "Could not get user licenses. Please make sure you have the correct access rights."
  const LicenseFailed := "Could not get license. Please make sure you have the correct access rights."

  /** The message of the failing step, by the step's position, in each workflow. */
  const InformationMessages := [CurrentUserFailed, UserInformationFailed, UserDescriptionFailed]
  const UpdateMessages := [CurrentUserFailed, CurrentDescriptionFailed, DescriptionUpdateFailed, InformationUpdateFailed]

  // ------------------------------------------------------------------ reading

  /** Current user, then the user resource (template stripped), then the user description
      (link used as is); the first failure ends the workflow with its own message and empty
      information. */
  method GetUserInformation(resourceURL: string, b: UserBackend)
    returns (info: UserInformation, ret: Option<Status>, calls: seq<HalCall<UserPatch>>)
    ensures 1 <= |calls| <= 3 && calls[0] == HalGet("User", resourceURL + "/current")
    ensures forall i :: 0 <= i < |calls| - 1 ==> b.answer(calls[i]).Success?
    ensures ret.Some? <==> b.answer(calls[|calls| - 1]).Failure?
    ensures ret.None? ==> |calls| == 3
    ensures ret.Some? ==> (info == NoInformation &&
              ret.value == Status(b.answer(calls[|calls| - 1]).error.code, InformationMessages[|calls| - 1]))
    ensures |calls| >= 2 ==>
              var current := b.answer(calls[0]).value;
              calls[1] == HalGet("User", StripTemplateParameter(b.lookup(current, "_links.user.href"))) &&
              (|calls| == 3 ==> calls[2] == HalGet("User", b.lookup(current, "_links.userDescription.href")))
    ensures ret.None? ==>
              info == b.unmarshalInformation(b.answer(calls[2]).value,
                                             b.unmarshalInformation(b.answer(calls[1]).value, NoInformation))
  {
    calls := [HalGet("User", resourceURL + "/current")];
    var currentUser := b.answer(calls[0]);
    if currentUser.Failure? {
      return NoInformation, Some(Status(currentUser.error.code, CurrentUserFailed)), calls;
    }
    var userLink := StripTemplateParameter(b.lookup(currentUser.value, "_links.user.href"));
    calls := calls + [HalGet("User", userLink)];
    var user := b.answer(calls[1]);
    if user.Failure? {
      return NoInformation, Some(Status(user.error.code, UserInformationFailed)), calls;
    }
    info := b.unmarshalInformation(user.value, NoInformation);
    var descriptionLink := b.lookup(currentUser.value, "_links.userDescription.href");
    calls := calls + [HalGet("User", descriptionLink)];
    var description := b.answer(calls[2]);
    if description.Failure? {
      return NoInformation, Some(Status(description.error.code, UserDescriptionFailed)), calls;
    }
    info := b.unmarshalInformation(description.value, info);
    ret := None;
  }

  /** The link of an embedded license entry. */
  function LicenseLink(b: UserBackend, entry: Bytes): string {
    b.lookup(entry, "_links.license.href")
  }

  /** The outcome of fetching the licenses of some entries: the licenses, or the first failing
      status; and the license links requested. */
  datatype Fetched = Fetched(result: Result<seq<License>, Status>, links: seq<string>)

  /** Reference definition of the license loop: the entries are fetched in order, each license
      named after its license resource, and the first failure stops the loop. */
  function FetchLicenses(b: UserBackend, entries: seq<Bytes>): Fetched {
    if entries == [] then Fetched(Success([]), [])
    else
      var before := FetchLicenses(b, entries[..|entries| - 1]);
      var entry := entries[|entries| - 1];
      if before.result.Failure? then before
      else
        var link := LicenseLink(b, entry);
        match b.answer(HalGet("User", link))
        case Failure(st) => Fetched(Failure(st), before.links + [link])
        case Success(body) =>
          Fetched(Success(before.result.value + [b.unmarshalLicense(entry).(name := b.lookup(body, "name"))]),
                  before.links + [link])
  }

  /** The licenses are fetched exactly when every entry's license resource answers; then there
      is one license per entry, in the embedded order, each named by its resource. */
  lemma {:induction false} FetchLicensesSucceeds(b: UserBackend, entries: seq<Bytes>)
    ensures var f := FetchLicenses(b, entries);
            f.result.Success? <==> forall i :: 0 <= i < |entries| ==> b.answer(HalGet("User", LicenseLink(b, entries[i]))).Success?
    ensures var f := FetchLicenses(b, entries);
            f.result.Success? ==>
              |f.result.value| == |entries| && |f.links| == |entries| &&
              forall i :: 0 <= i < |entries| ==>
                f.links[i] == LicenseLink(b, entries[i]) &&
                f.result.value[i] == b.unmarshalLicense(entries[i]).(name := b.lookup(b.answer(HalGet("User", f.links[i])).value, "name"))
  {
    if entries != [] {
      var init := entries[..|entries| - 1];
      FetchLicensesSucceeds(b, init);
      forall i | 0 <= i < |init| ensures init[i] == entries[i] { }
    }
  }

  /** A failed fetch requested the license links of a prefix of the entries, all of which but
      the last answered; the status is the last one's. */
  lemma {:induction false} FetchLicensesStopsAtFailure(b: UserBackend, entries: seq<Bytes>)
    requires FetchLicenses(b, entries).result.Failure?
    ensures var f := FetchLicenses(b, entries);
            var k := |f.links| - 1;
            0 <= k < |entries| &&
            (forall i :: 0 <= i <= k ==> f.links[i] == LicenseLink(b, entries[i])) &&
            (forall i :: 0 <= i < k ==> b.answer(HalGet("User", f.links[i])).Success?) &&
            b.answer(HalGet("User", f.links[k])) == Failure(f.result.error)
  {
    var init := entries[..|entries| - 1];
    var before := FetchLicenses(b, init);
    var f := FetchLicenses(b, entries);
    forall i | 0 <= i < |init| ensures init[i] == entries[i] { }
    if before.result.Failure? {
      assert f == before;
      FetchLicensesStopsAtFailure(b, init);
    } else {
      assert |before.links| == |init| &&
             forall i :: 0 <= i < |init| ==>
               before.links[i] == LicenseLink(b, init[i]) && b.answer(HalGet("User", before.links[i])).Success?
      by {
        FetchLicensesSucceeds(b, init);
      }
      var link := LicenseLink(b, entries[|entries| - 1]);
      assert f.links == before.links + [link] && b.answer(HalGet("User", link)) == Failure(f.result.error);
      forall i | 0 <= i < |init|
        ensures f.links[i] == LicenseLink(b, entries[i]) && b.answer(HalGet("User", f.links[i])).Success?
      {
        assert f.links[i] == before.links[i];
      }
    }
  }

  /** Current user, then the license list (template stripped), then each embedded license's
      resource in order; any failure ends the workflow with its own message and no licenses. */
  method GetUserLicenses(resourceURL: string, b: UserBackend)
    returns (licenses: UserLicenses, ret: Option<Status>, calls: seq<HalCall<UserPatch>>)
    ensures |calls| >= 1 && calls[0] == HalGet("User", resourceURL + "/current")
    ensures b.answer(calls[0]).Failure? ==>
              |calls| == 1 && licenses == UserLicenses([]) &&
              ret == Some(Status(b.answer(calls[0]).error.code, CurrentUserFailed))
    ensures b.answer(calls[0]).Success? ==>
              var listLink := StripTemplateParameter(b.lookup(b.answer(calls[0]).value, "_links.userLicenses.href"));
              |calls| >= 2 && calls[1] == HalGet("User", listLink) &&
              if b.answer(calls[1]).Failure? then
                |calls| == 2 && licenses == UserLicenses([]) &&
                ret == Some(Status(b.answer(calls[1]).error.code, UserLicensesFailed))
              else
                var f := FetchLicenses(b, b.embeddedLicenses(b.answer(calls[1]).value));
                calls[2..] == seq(|f.links|, i requires 0 <= i < |f.links| => HalGet("User", f.links[i])) &&
                match f.result
                case Success(list) => licenses == UserLicenses(list) && ret.None?
                case Failure(st) => licenses == UserLicenses([]) && ret == Some(Status(st.code, LicenseFailed))
  {
    calls := [HalGet("User", resourceURL + "/current")];
    var currentUser := b.answer(calls[0]);
    if currentUser.Failure? {
      return UserLicenses([]), Some(Status(currentUser.error.code, CurrentUserFailed)), calls;
    }
    var listLink := StripTemplateParameter(b.lookup(currentUser.value, "_links.userLicenses.href"));
    calls := calls + [HalGet("User", listLink)];
    var listResult := b.answer(calls[1]);
    if listResult.Failure? {
      return UserLicenses([]), Some(Status(listResult.error.code, UserLicensesFailed)), calls;
    }
    var entries := b.embeddedLicenses(listResult.value);
    var fetched, licenseCalls := FetchEach(b, entries);
    calls := calls + licenseCalls;
    match fetched
    case Success(list) =>
      licenses, ret := UserLicenses(list), None;
    case Failure(st) =>
      licenses, ret := UserLicenses([]), Some(Status(st.code, LicenseFailed));
  }

  /** The license loop: each embedded entry's license resource is fetched in order and names
      the entry's license; the first failure stops the loop. */
  method FetchEach(b: UserBackend, entries: seq<Bytes>)
    returns (fetched: Result<seq<License>, Status>, calls: seq<HalCall<UserPatch>>)
    ensures var f := FetchLicenses(b, entries);
            fetched == f.result &&
            calls == seq(|f.links|, i requires 0 <= i < |f.links| => HalGet("User", f.links[i]))
  {
    var list: seq<License> := [];
    var links: seq<string> := [];
    calls := [];
    var i := 0;
    while i < |entries|
      invariant 0 <= i <= |entries|
      invariant FetchLicenses(b, entries[..i]) == Fetched(Success(list), links)
      invariant calls == seq(|links|, j requires 0 <= j < |links| => HalGet("User", links[j]))
    {
      var entry := entries[i];
      assert entries[..i + 1][..i] == entries[..i];
      var license := b.unmarshalLicense(entry);
      var link := LicenseLink(b, entry);
      calls := calls + [HalGet("User", link)];
      var licenseResult := b.answer(HalGet("User", link));
      if licenseResult.Failure? {
        assert FetchLicenses(b, entries[..i + 1]) == Fetched(Failure(licenseResult.error), links + [link]);
        FetchFailureIsFinal(b, entries, i + 1);
        return Failure(licenseResult.error), calls;
      }
      license := license.(name := b.lookup(licenseResult.value, "name"));
      list := list + [license];
      links := links + [link];
      i := i + 1;
    }
    assert entries[..i] == entries;
    fetched := Success(list);
  }

  /** Once the fetch of a prefix failed, fetching more entries changes nothing. */
  lemma {:induction false} FetchFailureIsFinal(b: UserBackend, entries: seq<Bytes>, k: nat)
    requires k <= |entries|
    requires FetchLicenses(b, entries[..k]).result.Failure?
    ensures FetchLicenses(b, entries) == FetchLicenses(b, entries[..k])
    decreases |entries| - k
  {
    if k < |entries| {
      assert entries[..k + 1][..k] == entries[..k];
      FetchFailureIsFinal(b, entries, k + 1);
    } else {
      assert entries[..k] == entries;
    }
  }

  // ------------------------------------------------------------------ updating

  /** A provided value wins; a missing one is taken from the stored description. */
  function MergeField(provided: Option<string>, stored: Option<string>): Option<string> {
    if provided.Some? then provided else stored
  }

  /** The six address fields, each merged the same way. */
  function MergeAddress(provided: Address, stored: Address): (r: Address)
    ensures forall f :: Field(r, f) == MergeField(Field(provided, f), Field(stored, f))
  {
    Address(MergeField(provided.zip, stored.zip), MergeField(provided.city, stored.city),
            MergeField(provided.address, stored.address), MergeField(provided.state, stored.state),
            MergeField(provided.countryName, stored.countryName), MergeField(provided.country, stored.country))
  }

  /** One address field of the update step: a provided value is written into the stored
      description, a missing one is filled in from it. Both sides end up equal. */
  method MergeAddressField(given: Option<string>, stored: Option<string>)
    returns (givenAfter: Option<string>, storedAfter: Option<string>)
    ensures givenAfter == storedAfter == MergeField(given, stored)
    ensures given.Some? ==> storedAfter == given
    ensures given.None? ==> givenAfter == stored
  {
    givenAfter, storedAfter := given, stored;
    if given.Some? {
      storedAfter := given;
    } else {
      givenAfter := stored;
    }
  }

  /** The description PATCHed: company, address and uid taken from the update where provided. */
  function MergeDescription(info: UserInformation, stored: UserDescription): UserDescription {
    UserDescription(
      if info.address.Some? then MergeAddress(info.address.value, stored.address) else stored.address,
      info.company.GetOr(stored.company),
      info.uid.GetOr(stored.uid))
  }

  /** The update as returned after the description step: its address completed from the stored one. */
  function MergedInformation(info: UserInformation, stored: UserDescription): UserInformation {
    info.(address := Some(MergeDescription(info, stored).address))
  }

  /** The user resource PATCHed: missing names and e-mail become "". */
  function InfoPatchOf(info: UserInformation): UserInfo {
    UserInfo(info.email.GetOr(""), info.firstName.GetOr(""), info.lastName.GetOr(""))
  }

  /** The update as finally returned: missing names and e-mail become "". */
  function CompletedInformation(info: UserInformation): UserInformation {
    info.(email := Some(info.email.GetOr("")), firstName := Some(info.firstName.GetOr("")),
          lastName := Some(info.lastName.GetOr("")))
  }

  /** What the description step does: company and uid overwrite only when provided; each
      address field is the provided one or else the stored one; without an address the stored
      one is kept; and afterwards the returned information and the description agree on the
      whole address. No other field of the update changes. */
  lemma MergeDescriptionSpec(info: UserInformation, stored: UserDescription, f: AddressField)
    ensures var d := MergeDescription(info, stored);
            var m := MergedInformation(info, stored);
            d.company == (if info.company.Some? then info.company.value else stored.company) &&
            d.uid == (if info.uid.Some? then info.uid.value else stored.uid) &&
            Field(d.address, f) == (if info.address.Some? && Field(info.address.value, f).Some?
                                    then Field(info.address.value, f) else Field(stored.address, f)) &&
            (info.address.None? ==> d.address == stored.address) &&
            m.address == Some(d.address) &&
            m.(address := info.address) == info
  {
  }

  /** Merging is idempotent: the merged update, merged again into the description it produced,
      produces that description and that update again. */
  lemma MergeIdempotent(info: UserInformation, stored: UserDescription)
    ensures var d := MergeDescription(info, stored);
            var m := MergedInformation(info, stored);
            MergeDescription(m, d) == d && MergedInformation(m, d) == m
  {
    var d := MergeDescription(info, stored);
    var m := MergedInformation(info, stored);
    assert MergeAddress(d.address, d.address) == d.address;
  }

  /** The user-resource step: provided names and e-mail are copied into the PATCH, missing ones
      are "" there and in the returned information, which agrees with the PATCH on all three. */
  lemma InfoPatchSpec(info: UserInformation)
    ensures var p := InfoPatchOf(info);
            var c := CompletedInformation(info);
            (info.email.Some? ==> p.email == info.email.value) && (info.email.None? ==> p.email == "") &&
            (info.firstName.Some? ==> p.firstName == info.firstName.value) && (info.firstName.None? ==> p.firstName == "") &&
            (info.lastName.Some? ==> p.lastName == info.lastName.value) && (info.lastName.None? ==> p.lastName == "") &&
            c.email == Some(p.email) && c.firstName == Some(p.firstName) && c.lastName == Some(p.lastName) &&
            c.address == info.address && c.company == info.company && c.uid == info.uid
  {
  }

  /** The description step of the update: company, address and uid written into the stored
      description where provided, and missing address fields filled in from it. */
  method MergeIntoDescription(info: UserInformation, stored: UserDescription)
    returns (result: UserInformation, description: UserDescription)
    ensures description == MergeDescription(info, stored)
    ensures result == MergedInformation(info, stored)
  {
    result := info;
    description := stored;
    if info.company.Some? {
      description := description.(company := info.company.value);
    }
    if info.address.Some? {
      var given := info.address.value;
      var kept := description.address;
      var zip, zip' := MergeAddressField(given.zip, kept.zip);
      var street, street' := MergeAddressField(given.address, kept.address);
      var state, state' := MergeAddressField(given.state, kept.state);
      var city, city' := MergeAddressField(given.city, kept.city);
      var country, country' := MergeAddressField(given.country, kept.country);
      var countryName, countryName' := MergeAddressField(given.countryName, kept.countryName);
      description := description.(address := Address(zip', city', street', state', countryName', country'));
      result := result.(address := Some(Address(zip, city, street, state, countryName, country)));
    } else {
      result := result.(address := Some(description.address));
    }
    if info.uid.Some? {
      description := description.(uid := info.uid.value);
    }
  }

  /** The user-resource step of the update: provided names and e-mail go into the PATCH body,
      missing ones point at its empty values. */
  method CompleteUserInfo(info: UserInformation) returns (result: UserInformation, userInfo: UserInfo)
    ensures userInfo == InfoPatchOf(info)
    ensures result == CompletedInformation(info)
  {
    result := info;
    userInfo := UserInfo("", "", "");
    if info.email.Some? {
      userInfo := userInfo.(email := info.email.value);
    } else {
      result := result.(email := Some(userInfo.email));
    }
    if info.firstName.Some? {
      userInfo := userInfo.(firstName := info.firstName.value);
    } else {
      result := result.(firstName := Some(userInfo.firstName));
    }
    if info.lastName.Some? {
      userInfo := userInfo.(lastName := info.lastName.value);
    } else {
      result := result.(lastName := Some(userInfo.lastName));
    }
  }

  /** Current user, then the description (link as is), then PATCH of the merged description,
      then PATCH of the user resource at the stripped self link. The first failure ends the
      workflow with its own message and the information as merged so far. */
  method UpdateUserInformation(resourceURL: string, info: UserInformation, b: UserBackend)
    returns (result: UserInformation, ret: Option<Status>, calls: seq<HalCall<UserPatch>>)
    ensures 1 <= |calls| <= 4 && calls[0] == HalGet("User", resourceURL + "/current")
    ensures forall i :: 0 <= i < |calls| - 1 ==> b.answer(calls[i]).Success?
    ensures ret.Some? <==> b.answer(calls[|calls| - 1]).Failure?
    ensures ret.None? ==> |calls| == 4
    ensures ret.Some? ==> ret.value == Status(b.answer(calls[|calls| - 1]).error.code, UpdateMessages[|calls| - 1])
    ensures |calls| <= 2 ==> result == info
    ensures |calls| >= 2 ==>
              var current := b.answer(calls[0]).value;
              var descriptionLink := b.lookup(current, "_links.userDescription.href");
              calls[1] == HalGet("User", descriptionLink) &&
              (|calls| >= 3 ==>
                var stored := b.unmarshalDescription(b.answer(calls[1]).value);
                calls[2] == HalPatch("User", descriptionLink, DescriptionPatch(MergeDescription(info, stored))) &&
                (|calls| == 3 ==> result == MergedInformation(info, stored)) &&
                (|calls| == 4 ==>
                   calls[3] == HalPatch("User", GetSelfLinkFromHal(current, b.lookup), InfoPatch(InfoPatchOf(info))) &&
                   result == CompletedInformation(MergedInformation(info, stored))))
  {
    result := info;
    calls := [HalGet("User", resourceURL + "/current")];
    var currentUser := b.answer(calls[0]);
    if currentUser.Failure? {
      return result, Some(Status(currentUser.error.code, CurrentUserFailed)), calls;
    }
    var descriptionLink := b.lookup(currentUser.value, "_links.userDescription.href");
    calls := calls + [HalGet("User", descriptionLink)];
    var descriptionResult := b.answer(calls[1]);
    if descriptionResult.Failure? {
      return result, Some(Status(descriptionResult.error.code, CurrentDescriptionFailed)), calls;
    }
    var stored := b.unmarshalDescription(descriptionResult.value);
    var description;
    result, description := MergeIntoDescription(info, stored);

    calls := calls + [HalPatch("User", descriptionLink, DescriptionPatch(description))];
    var descriptionPatch := b.answer(calls[2]);
    if descriptionPatch.Failure? {
      return result, Some(Status(descriptionPatch.error.code, DescriptionUpdateFailed)), calls;
    }

    var userInfoLink := StripTemplateParameter(b.lookup(currentUser.value, "_links.self.href"));
    var userInfo;
    result, userInfo := CompleteUserInfo(result);
    calls := calls + [HalPatch("User", userInfoLink, InfoPatch(userInfo))];
    var infoPatch := b.answer(calls[3]);
    if infoPatch.Failure? {
      return result, Some(Status(infoPatch.error.code, InformationUpdateFailed)), calls;
    }
    ret := None;
  }
}
