/** The validating builders of the content-import, profile-export and profile-visibility
    requests. Setters that reject an argument throw and leave the builder as it was; `build`
    checks what is mandatory and otherwise hands the builder's values to the immutable request. */
module Requests {
  import opened Common

  /** A correlation entry attached to an import; the builder does not look inside it. */
  datatype CorrelationData = CorrelationData(id: string, kind: string)

  // ---------------------------------------------------------------------------------------------
  // ContentImportRequest

  datatype ContentImportRequest = ContentImportRequest(
    isChildContent: bool,
    destinationFolder: string,
    contentIds: seq<string>,
    correlationData: Option<seq<CorrelationData>>)

  class ContentImportBuilder {
    var isChildContent: bool
    var destinationFolder: Option<string>
    var contentIds: Option<seq<string>>
    var correlationData: Option<seq<CorrelationData>>

    constructor()
      ensures !isChildContent && destinationFolder.None? && contentIds.None? && correlationData.None?
    {
      isChildContent := false;
      destinationFolder := None;
      contentIds := None;
      correlationData := None;
    }

    /** `childContent()`: marks the import as a child content import. */
    method ChildContent()
      modifies this`isChildContent
      ensures isChildContent
    {
      isChildContent := true;
    }

    /** `toFolder(toFolder)`. */
    method ToFolder(toFolder: Option<string>) returns (o: Outcome)
      modifies this`destinationFolder
      ensures NullOrEmpty(toFolder) ==>
        o == Throw(IllegalArgument("Illegal toFolder, should not be null or empty.")) && destinationFolder == old(destinationFolder)
      ensures !NullOrEmpty(toFolder) ==> o == Pass && destinationFolder == toFolder
    {
      if NullOrEmpty(toFolder) {
        return Throw(IllegalArgument("Illegal toFolder, should not be null or empty."));
      }
      destinationFolder := toFolder;
      o := Pass;
    }

    /** `contentIds(contentIds)`: unchecked until `build`. */
    method ContentIds(contentIds: Option<seq<string>>)
      modifies this`contentIds
      ensures this.contentIds == contentIds
    {
      this.contentIds := contentIds;
    }

    /** `correlationData(correlationData)`: never checked. */
    method CorrelationDataIs(correlationData: Option<seq<CorrelationData>>)
      modifies this`correlationData
      ensures this.correlationData == correlationData
    {
      this.correlationData := correlationData;
    }

    /** `build()`: needs a folder and at least one content id; the request then carries exactly the
        builder's values. */
    function Build(): (r: Result<ContentImportRequest>)
      reads this
      ensures r.Built? <==> !NullOrEmpty(destinationFolder) && !NullOrEmptyList(contentIds)
      ensures r.Built? ==> r.value == ContentImportRequest(isChildContent, destinationFolder.value, contentIds.value, correlationData)
      ensures NullOrEmpty(destinationFolder) ==> r == Thrown(IllegalState("To folder required."))
      ensures !NullOrEmpty(destinationFolder) && NullOrEmptyList(contentIds) ==> r == Thrown(IllegalState("ContentIds required."))
    {
      if NullOrEmpty(destinationFolder) then Thrown(IllegalState("To folder required."))
      else if contentIds.None? || |contentIds.value| == 0 then Thrown(IllegalState("ContentIds required."))
      else Built(ContentImportRequest(isChildContent, destinationFolder.value, contentIds.value, correlationData))
    }
  }

  // ---------------------------------------------------------------------------------------------
  // ProfileExportRequest

  datatype ProfileExportRequest = ProfileExportRequest(userIds: Option<seq<string>>, destinationFolder: string)

  class ProfileExportBuilder {
    var userIds: Option<seq<string>>
    var destinationFolder: Option<string>

    constructor()
      ensures userIds.None? && destinationFolder.None?
    {
      userIds := None;
      destinationFolder := None;
    }

    /** `exportUsers(userIds)`: any list, null and empty included. */
    method ExportUsers(userIds: Option<seq<string>>)
      modifies this`userIds
      ensures this.userIds == userIds
    {
      this.userIds := userIds;
    }

    /** `toFolder(toFolder)`. */
    method ToFolder(toFolder: Option<string>) returns (o: Outcome)
      modifies this`destinationFolder
      ensures NullOrEmpty(toFolder) ==>
        o == Throw(IllegalArgument("Illegal toFolder, should not be null or empty.")) && destinationFolder == old(destinationFolder)
      ensures !NullOrEmpty(toFolder) ==> o == Pass && destinationFolder == toFolder
    {
      if NullOrEmpty(toFolder) {
        return Throw(IllegalArgument("Illegal toFolder, should not be null or empty."));
      }
      destinationFolder := toFolder;
      o := Pass;
    }

    /** `build()`: only the folder is checked; the user list is passed on as it is, null included. */
    function Build(): (r: Result<ProfileExportRequest>)
      reads this
      ensures r.Built? <==> !NullOrEmpty(destinationFolder)
      ensures r.Built? ==> r.value == ProfileExportRequest(userIds, destinationFolder.value)
      ensures r.Thrown? ==> r.error == IllegalState("To folder required.")
    {
      if NullOrEmpty(destinationFolder) then Thrown(IllegalState("To folder required."))
      else Built(ProfileExportRequest(userIds, destinationFolder.value))
    }
  }

  // ---------------------------------------------------------------------------------------------
  // ProfileVisibilityRequest

  /** The request, with each field list as the `UserProfileField` values added, in call order. */
  datatype ProfileVisibilityRequest = ProfileVisibilityRequest(
    userId: string,
    privateFields: Option<seq<string>>,
    publicFields: Option<seq<string>>)

  class ProfileVisibilityBuilder {
    var userId: Option<string>
    var privateFieldsList: Option<seq<string>>
    var publicFieldsList: Option<seq<string>>

    constructor()
      ensures userId.None? && privateFieldsList.None? && publicFieldsList.None?
    {
      userId := None;
      privateFieldsList := None;
      publicFieldsList := None;
    }

    /** `forUser(userId)`. */
    method ForUser(userId: Option<string>) returns (o: Outcome)
      modifies this`userId
      ensures NullOrEmpty(userId) ==>
        o == Throw(IllegalArgument("userId should not be null or empty.")) && this.userId == old(this.userId)
      ensures !NullOrEmpty(userId) ==> o == Pass && this.userId == userId
    {
      if NullOrEmpty(userId) {
        return Throw(IllegalArgument("userId should not be null or empty."));
      }
      this.userId := userId;
      o := Pass;
    }

    /** `addPrivateField(privateField)`: the list is created on first use. */
    method AddPrivateField(privateField: Option<string>) returns (o: Outcome)
      modifies this`privateFieldsList
      ensures privateField.None? ==>
        o == Throw(IllegalArgument("private field should not be null or empty.")) && privateFieldsList == old(privateFieldsList)
      ensures privateField.Some? ==> o == Pass && privateFieldsList == Some(OrEmpty(old(privateFieldsList)) + [privateField.value])
    {
      if privateField.None? {
        return Throw(IllegalArgument("private field should not be null or empty."));
      }
      if privateFieldsList.None? {
        privateFieldsList := Some([]);
      }
      privateFieldsList := Some(privateFieldsList.value + [privateField.value]);
      o := Pass;
    }

    /** `addPrivateFields(privateFields)`: appends each field in order; an empty list still creates
        the builder's list. */
    method AddPrivateFields(privateFields: Option<seq<string>>) returns (o: Outcome)
      modifies this`privateFieldsList
      ensures privateFields.None? ==>
        o == Throw(IllegalArgument("private fields should not be null or empty.")) && privateFieldsList == old(privateFieldsList)
      ensures privateFields.Some? ==> o == Pass && privateFieldsList == Some(OrEmpty(old(privateFieldsList)) + privateFields.value)
    {
      if privateFields.None? {
        return Throw(IllegalArgument("private fields should not be null or empty."));
      }
      if privateFieldsList.None? {
        privateFieldsList := Some([]);
      }
      assert privateFieldsList.value == OrEmpty(old(privateFieldsList)) + privateFields.value[..0];
      var i := 0;
      while i < |privateFields.value|
        invariant 0 <= i <= |privateFields.value|
        invariant privateFieldsList == Some(OrEmpty(old(privateFieldsList)) + privateFields.value[..i])
      {
        var field := privateFields.value[i];
        assert privateFields.value[..i + 1] == privateFields.value[..i] + [field];
        assert OrEmpty(old(privateFieldsList)) + privateFields.value[..i + 1] == privateFieldsList.value + [field];
        privateFieldsList := Some(privateFieldsList.value + [field]);
        i := i + 1;
      }
      assert privateFields.value[..i] == privateFields.value;
      o := Pass;
    }

    /** `addPublicField(publicField)`: the list is created on first use. */
    method AddPublicField(publicField: Option<string>) returns (o: Outcome)
      modifies this`publicFieldsList
      ensures publicField.None? ==>
        o == Throw(IllegalArgument("public field should not be null or empty.")) && publicFieldsList == old(publicFieldsList)
      ensures publicField.Some? ==> o == Pass && publicFieldsList == Some(OrEmpty(old(publicFieldsList)) + [publicField.value])
    {
      if publicField.None? {
        return Throw(IllegalArgument("public field should not be null or empty."));
      }
      if publicFieldsList.None? {
        publicFieldsList := Some([]);
      }
      publicFieldsList := Some(publicFieldsList.value + [publicField.value]);
      o := Pass;
    }

    /** `addPublicFields(publicFields)`: appends each field in order; an empty list still creates
        the builder's list. */
    method AddPublicFields(publicFields: Option<seq<string>>) returns (o: Outcome)
      modifies this`publicFieldsList
      ensures publicFields.None? ==>
        o == Throw(IllegalArgument("public fields should not be null or empty.")) && publicFieldsList == old(publicFieldsList)
      ensures publicFields.Some? ==> o == Pass && publicFieldsList == Some(OrEmpty(old(publicFieldsList)) + publicFields.value)
    {
      if publicFields.None? {
        return Throw(IllegalArgument("public fields should not be null or empty."));
      }
      if publicFieldsList.None? {
        publicFieldsList := Some([]);
      }
      assert publicFieldsList.value == OrEmpty(old(publicFieldsList)) + publicFields.value[..0];
      var i := 0;
      while i < |publicFields.value|
        invariant 0 <= i <= |publicFields.value|
        invariant publicFieldsList == Some(OrEmpty(old(publicFieldsList)) + publicFields.value[..i])
      {
        var field := publicFields.value[i];
        assert publicFields.value[..i + 1] == publicFields.value[..i] + [field];
        assert OrEmpty(old(publicFieldsList)) + publicFields.value[..i + 1] == publicFieldsList.value + [field];
        publicFieldsList := Some(publicFieldsList.value + [field]);
        i := i + 1;
      }
      assert publicFields.value[..i] == publicFields.value;
      o := Pass;
    }

    /** `build()`: needs a user and at least one field in either list. */
    function Build(): (r: Result<ProfileVisibilityRequest>)
      reads this
      ensures r.Built? <==> !NullOrEmpty(userId) && !(NullOrEmptyList(privateFieldsList) && NullOrEmptyList(publicFieldsList))
      ensures r.Built? ==> r.value == ProfileVisibilityRequest(userId.value, privateFieldsList, publicFieldsList)
      ensures NullOrEmpty(userId) ==> r == Thrown(IllegalState("userId required."))
      ensures !NullOrEmpty(userId) && NullOrEmptyList(privateFieldsList) && NullOrEmptyList(publicFieldsList) ==>
        r == Thrown(IllegalState("Both public and private fields cannot be empty "))
    {
      if NullOrEmpty(userId) then Thrown(IllegalState("userId required."))
      else if NullOrEmptyList(privateFieldsList) && NullOrEmptyList(publicFieldsList) then
        Thrown(IllegalState("Both public and private fields cannot be empty "))
      else Built(ProfileVisibilityRequest(userId.value, privateFieldsList, publicFieldsList))
    }
  }

  /** Adding an empty field list creates the builder's list but does not make it count as
      non-empty: a build with only empty lists still fails. */
  lemma EmptyAddKeepsListEmpty(list: Option<seq<string>>, field: string)
    ensures NullOrEmptyList(Some(OrEmpty(list) + [])) <==> NullOrEmptyList(list)
    ensures !NullOrEmptyList(Some(OrEmpty(list) + [field]))
  {
    assert OrEmpty(list) + [] == OrEmpty(list);
  }
}
