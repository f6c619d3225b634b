/** The basic "Submit for Review" plugin's acceptance and validation rules and
    the template fields it hands to the review submission app
    (hooks/basic/create_version.py). */
module CreateVersion {
  import opened Values

  const PluginName := "Submit for Review"

  /** The tk-multi-reviewsubmission app's two storage settings. */
  datatype ReviewApp = ReviewApp(uploadToShotgun: Value, storeOnDisk: Value)

  const NoReviewAppMessage := "Unable to run " + PluginName + " without the tk-multi-reviewsubmission app!"
  const NoStorageMessage :=
    "tk-multi-reviewsubmission app is not configured to store images on disk nor upload to Shotgun!"

  /** accept: checked in a fixed order, each failing check ending the call.
      A missing path turns the item down; a missing or unusable review app
      leaves it accepted but disabled and unchecked. */
  function Accept(parentAccept: map<string, Value>, itemName: string, properties: map<string, Value>,
                  reviewApp: Option<ReviewApp>): (r: map<string, Value>)
    ensures !Truthy(Get(parentAccept, "accepted", NoneVal)) ==> r == parentAccept
    ensures Truthy(Get(parentAccept, "accepted", NoneVal)) && !Truthy(Get(properties, "path", NoneVal)) ==>
      && r.Keys == parentAccept.Keys + {"accepted", "extra_info"}
      && r["accepted"] == BoolVal(false)
      && r["extra_info"] == ShowMoreInfo("'path' property is not set for item: " + itemName)
      && forall k | k in parentAccept && k != "accepted" && k != "extra_info" :: r[k] == parentAccept[k]
    ensures Truthy(Get(parentAccept, "accepted", NoneVal)) && Truthy(Get(properties, "path", NoneVal))
            && (reviewApp.None? || (!Truthy(reviewApp.value.uploadToShotgun) && !Truthy(reviewApp.value.storeOnDisk))) ==>
      && r.Keys == parentAccept.Keys + {"enabled", "checked", "extra_info"}
      && r["enabled"] == BoolVal(false) && r["checked"] == BoolVal(false)
      && r["extra_info"] == ShowMoreInfo(if reviewApp.None? then NoReviewAppMessage else NoStorageMessage)
      && forall k | k in parentAccept && k != "enabled" && k != "checked" && k != "extra_info" :: r[k] == parentAccept[k]
    ensures Truthy(Get(parentAccept, "accepted", NoneVal)) && Truthy(Get(properties, "path", NoneVal))
            && reviewApp.Some? && (Truthy(reviewApp.value.uploadToShotgun) || Truthy(reviewApp.value.storeOnDisk)) ==>
      r == parentAccept
  {
    if !Truthy(Get(parentAccept, "accepted", NoneVal)) then parentAccept
    else if !Truthy(Get(properties, "path", NoneVal)) then
      parentAccept["extra_info" := ShowMoreInfo("'path' property is not set for item: " + itemName)]
                  ["accepted" := BoolVal(false)]
    else if reviewApp.None? then
      parentAccept["extra_info" := ShowMoreInfo(NoReviewAppMessage)]
                  ["enabled" := BoolVal(false)]["checked" := BoolVal(false)]
    else if !Truthy(reviewApp.value.uploadToShotgun) && !Truthy(reviewApp.value.storeOnDisk) then
      parentAccept["extra_info" := ShowMoreInfo(NoStorageMessage)]
                  ["enabled" := BoolVal(false)]["checked" := BoolVal(false)]
    else parentAccept
  }

  /** The path check comes first: a pathless item is turned down and its
      enabled and checked entries are left as the parent set them, even when
      no review app is installed. */
  lemma PathCheckPrecedesAppCheck(parentAccept: map<string, Value>, itemName: string,
                                  properties: map<string, Value>, reviewApp: Option<ReviewApp>)
    requires Truthy(Get(parentAccept, "accepted", NoneVal))
    requires !Truthy(Get(properties, "path", NoneVal))
    ensures var r := Accept(parentAccept, itemName, properties, reviewApp);
      && r["accepted"] == BoolVal(false)
      && ("enabled" in r <==> "enabled" in parentAccept)
      && ("enabled" in parentAccept ==> r["enabled"] == parentAccept["enabled"])
      && ("checked" in r <==> "checked" in parentAccept)
      && ("checked" in parentAccept ==> r["checked"] == parentAccept["checked"])
  {
  }

  /** validate: the item's files must be on disk. */
  function Validate(properties: map<string, Value>, pathExists: Value -> bool): (r: bool)
    ensures Truthy(Get(properties, "is_sequence", NoneVal)) ==>
      (r <==> Truthy(Get(properties, "sequence_paths", NoneVal)))
    ensures !Truthy(Get(properties, "is_sequence", NoneVal)) ==>
      (r <==> pathExists(Get(properties, "path", NoneVal)))
  {
    if Truthy(Get(properties, "is_sequence", NoneVal)) then
      Truthy(Get(properties, "sequence_paths", NoneVal))
    else
      pathExists(Get(properties, "path", NoneVal))
  }

  /** _get_frame_range: (0, 0) for a single file, otherwise the frame numbers
      of the first and last sequence paths. */
  function FrameRange(properties: map<string, Value>, frameNumber: Value -> int): (r: Result<(int, int)>)
    ensures !Truthy(Get(properties, "is_sequence", NoneVal)) ==> r == Ok((0, 0))
    ensures Truthy(Get(properties, "is_sequence", NoneVal)) ==>
      var paths := Get(properties, "sequence_paths", NoneVal);
      && (paths.ListVal? && paths.elems != [] ==>
            r == Ok((frameNumber(paths.elems[0]), frameNumber(paths.elems[|paths.elems| - 1]))))
      && (paths == ListVal([]) ==> r == Err(IndexError))
      && (!paths.ListVal? ==> r.Err?)
  {
    if !Truthy(Get(properties, "is_sequence", NoneVal)) then Ok((0, 0))
    else
      var paths := Get(properties, "sequence_paths", NoneVal);
      if !paths.ListVal? then Err(TypeError("'" + TypeName(paths) + "' object has no attribute '__getitem__'"))
      else if paths.elems == [] then Err(IndexError)
      else Ok((frameNumber(paths.elems[0]), frameNumber(paths.elems[|paths.elems| - 1])))
  }

  /** A single-frame sequence starts and ends on the same frame. */
  lemma OneFrameSequence(properties: map<string, Value>, frameNumber: Value -> int, path: Value)
    requires Truthy(Get(properties, "is_sequence", NoneVal))
    requires Get(properties, "sequence_paths", NoneVal) == ListVal([path])
    ensures FrameRange(properties, frameNumber) == Ok((frameNumber(path), frameNumber(path)))
  {
  }

  /** The template fields publish() hands to the review app: a copy of the
      item's "fields" property, its "version" replaced by the publish data's
      version number when there is publish data, and the context's fields
      laid over all of it. */
  function PublishFields(properties: map<string, Value>, contextFields: map<string, Value>): (r: Result<map<string, Value>>)
    ensures r.Ok? <==>
      Get(properties, "fields", DictVal(map[])).DictVal?
      && ("sg_publish_data" in properties ==>
            properties["sg_publish_data"].DictVal? && "version_number" in properties["sg_publish_data"].entries)
    ensures r.Ok? ==>
      var itemFields := Get(properties, "fields", DictVal(map[])).entries;
      var published := "sg_publish_data" in properties;
      && r.value.Keys == itemFields.Keys + contextFields.Keys + (if published then {"version"} else {})
      && (forall k | k in contextFields :: r.value[k] == contextFields[k])
      && (published && "version" !in contextFields ==>
            r.value["version"] == properties["sg_publish_data"].entries["version_number"])
      && (forall k | k in itemFields && k !in contextFields && (k != "version" || !published) ::
            r.value[k] == itemFields[k])
  {
    var fields := Get(properties, "fields", DictVal(map[]));
    if !fields.DictVal? then Err(TypeError("'" + TypeName(fields) + "' object does not support item assignment"))
    else
      var withVersion :-
        if "sg_publish_data" !in properties then Ok(fields.entries)
        else
          var data := properties["sg_publish_data"];
          if !data.DictVal? then Err(TypeError("'" + TypeName(data) + "' object has no attribute '__getitem__'"))
          else if "version_number" !in data.entries then Err(KeyError("version_number"))
          else Ok(fields.entries["version" := data.entries["version_number"]]);
      Ok(withVersion + contextFields)
  }
}
