/**
 * The Apple MDM commander: it builds typed MDM commands, works out who a
 * command is attributed to, persists the command through the MDM storage and
 * then always sends a push notification to the target hosts.
 *
 * Storage and pusher are injected collaborators. Each is modelled as the
 * answers it gives (a function of the call's arguments); every call the
 * commander makes to them is recorded, in order, in the ghost trace `calls`.
 * Rendering a command to its property-list text and decoding it back
 * (mdm.DecodeCommand), and plist.Marshal, are abstract partial functions:
 * the rendered document is represented by the Command value itself, and
 * `decode`/`marshal` say whether the library rejects it.
 */
module AppleMdm {
  import opened Wrappers
  import opened Errors

  /** http.StatusBadGateway, the status an APNSDeliveryError maps to. */
  const BadGateway: int := 502

  /** The profile contents (a mobileconfig) as raw bytes. */
  type Bytes = seq<bv8>

  /** An application manifest (appmanifest.Manifest), opaque to the commander. */
  datatype Manifest = Manifest(raw: string)

  /** The part of fleet.Host the commander uses. */
  datatype Host = Host(uuid: string)

  /** One variant per RequestType; every variant carries its CommandUUID and only its own keys. */
  datatype Command =
    | InstallProfile(commandUUID: string, payload: Bytes)
    | RemoveProfile(commandUUID: string, identifier: string)
    | DeviceLock(commandUUID: string, pin: string)
    | EraseDevice(commandUUID: string, pin: string, obliterationBehavior: string)
    | InstallEnterpriseApplication(commandUUID: string, manifestURL: string)
    | InstallEnterpriseApplicationWithManifest(commandUUID: string, manifest: Manifest)
    | AccountConfiguration(commandUUID: string, primaryAccountFullName: string,
                           primaryAccountUserName: string, lockPrimaryAccountInfo: bool)
  {
    /**
     * The RequestType key of the command dictionary. Both enterprise
     * application variants send the same request type; every other variant
     * has its own.
     */
    function RequestType(): (r: string)
      ensures r == "InstallProfile" <==> this.InstallProfile?
      ensures r == "RemoveProfile" <==> this.RemoveProfile?
      ensures r == "DeviceLock" <==> this.DeviceLock?
      ensures r == "EraseDevice" <==> this.EraseDevice?
      ensures r == "InstallEnterpriseApplication" <==>
                this.InstallEnterpriseApplication? || this.InstallEnterpriseApplicationWithManifest?
      ensures r == "AccountConfiguration" <==> this.AccountConfiguration?
    {
      match this
      case InstallProfile(_, _) => "InstallProfile"
      case RemoveProfile(_, _) => "RemoveProfile"
      case DeviceLock(_, _) => "DeviceLock"
      case EraseDevice(_, _, _) => "EraseDevice"
      case InstallEnterpriseApplication(_, _) => "InstallEnterpriseApplication"
      case InstallEnterpriseApplicationWithManifest(_, _) => "InstallEnterpriseApplication"
      case AccountConfiguration(_, _, _, _) => "AccountConfiguration"
    }
  }

  /** fleet.MDMAppleStore as the commander uses it: the answer to each of its calls. */
  datatype Store = Store(
    getProfileUserID: string -> Result<nat, Error>,
    enqueueCommand: (seq<string>, Command, Option<nat>, bool) -> Option<Error>,
    enqueueDeviceLockCommand: (Host, Command, string) -> Option<Error>,
    enqueueDeviceWipeCommand: (Host, Command) -> Option<Error>)

  /** The APNs answer for one host. */
  datatype PushResponse = PushResponse(err: Option<Error>)

  /** What Pusher.Push returns: a response per host uuid and a top-level error. */
  datatype PushReply = PushReply(responses: map<string, PushResponse>, err: Option<Error>)

  datatype Pusher = Pusher(push: seq<string> -> PushReply)

  /** A call made to the storage or the pusher. */
  datatype Call =
    | GetProfileUserID(profIdent: string)
    | EnqueueCommand(hostUUIDs: seq<string>, cmd: Command, userID: Option<nat>, fleetOwned: bool)
    | EnqueueDeviceLockCommand(host: Host, cmd: Command, pin: string)
    | EnqueueDeviceWipeCommand(host: Host, cmd: Command)
    | Push(hostUUIDs: seq<string>)

  /** The result of getProfileCreator: a user id, the fleet-initiated flag and an error. */
  datatype Creator = Creator(userID: Option<nat>, fleetInitiated: bool, err: Option<Error>)

  /**
   * getProfileCreator's rule, given the storage's answer to GetProfileUserID:
   * a stored user id of 0 means the command is fleet initiated and has no
   * user; any other id attributes it to that user; a failed lookup gives
   * the error with no user and not fleet initiated.
   */
  function ProfileCreator(lookup: Result<nat, Error>): (c: Creator)
    ensures lookup.Err? ==> c.err == Some(lookup.error) && c.userID.None? && !c.fleetInitiated
    ensures lookup.Ok? ==> c.err.None?
    ensures lookup.Ok? ==> (c.fleetInitiated <==> lookup.value == 0)
    ensures lookup.Ok? ==> (c.userID.None? <==> c.fleetInitiated)
    ensures lookup.Ok? && c.userID.Some? ==> c.userID.value == lookup.value
  {
    match lookup
    case Err(e) => Creator(None, false, Some(e))
    case Ok(uid) => if uid == 0 then Creator(None, true, None) else Creator(Some(uid), false, None)
  }

  /** The host uuids whose push response carries an error. */
  function FailedUUIDs(responses: map<string, PushResponse>): set<string>
  {
    set u | u in responses && responses[u].err.Some?
  }

  predicate Distinct(s: seq<string>)
  {
    forall i, j :: 0 <= i < j < |s| ==> s[i] != s[j]
  }

  /** `s` lists every element of `xs` exactly once, in some order. */
  predicate Enumerates(s: seq<string>, xs: set<string>)
  {
    Distinct(s) && (set u | u in s) == xs
  }

  /**
   * The loop of sendNotifications over the response map. Go visits a map in
   * no fixed order, so the next key is picked arbitrarily.
   */
  method CollectFailed(responses: map<string, PushResponse>) returns (failed: seq<string>)
    ensures Enumerates(failed, FailedUUIDs(responses))
  {
    failed := [];
    var pending := responses.Keys;
    while pending != {}
      invariant pending <= responses.Keys
      invariant Distinct(failed)
      invariant forall u :: u in failed ==> u !in pending
      invariant (set u | u in failed) == FailedUUIDs(responses) - pending
      decreases pending
    {
      var uuid :| uuid in pending;
      ghost var listed := set u | u in failed;
      if responses[uuid].err.Some? {
        failed := failed + [uuid];
        assert (set u | u in failed) == listed + {uuid};
      }
      pending := pending - {uuid};
    }
  }

  /** APNSDeliveryError.StatusCode: 502 whatever hosts failed and whatever the cause. */
  function StatusCode(e: Error): (code: int)
    requires e.Delivery?
    ensures code == 502
  {
    BadGateway
  }

  /** `e` is an APNSDeliveryError with a nil Err listing exactly `failed`, wrapped by `msgs`, outermost first. */
  predicate DeliveryUnder(e: Error, msgs: seq<string>, failed: set<string>)
    decreases |msgs|
  {
    if msgs == [] then e.Delivery? && e.err.None? && Enumerates(e.failedUUIDs, failed)
    else e.Wrapped? && e.msg == msgs[0] && DeliveryUnder(e.cause, msgs[1..], failed)
  }

  /**
   * What sendNotifications returns for the pusher's `reply`, as seen by a
   * caller that has wrapped it with `msgs`: the top-level push error if there
   * is one; otherwise nil when no host failed, and a delivery error listing
   * exactly the failed hosts when some did.
   */
  predicate Notified(reply: PushReply, msgs: seq<string>, err: Option<Error>)
  {
    match reply.err
    case Some(top) => err == WrapAll(Some(top), msgs + ["commander push"])
    case None =>
      if FailedUUIDs(reply.responses) == {} then err.None?
      else err.Some? && DeliveryUnder(err.value, msgs, FailedUUIDs(reply.responses))
  }

  lemma NotifiedWrapped(reply: PushReply, msgs: seq<string>, err: Option<Error>, msg: string)
    requires Notified(reply, msgs, err)
    ensures Notified(reply, [msg] + msgs, Wrap(err, msg))
  {
    assert ([msg] + msgs)[1..] == msgs;
    assert ([msg] + msgs + ["commander push"])[1..] == msgs + ["commander push"];
  }

  class Commander {
    const storage: Store
    const pusher: Pusher
    /** mdm.DecodeCommand: the error it gives for a rendered command, or None if it decodes. */
    const decode: Command -> Option<Error>
    /** plist.Marshal: the error it gives for a command, or None if it marshals. */
    const marshal: Command -> Option<Error>
    /** Every call made to storage and pusher, in order. */
    ghost var calls: seq<Call>

    constructor (storage: Store, pusher: Pusher, decode: Command -> Option<Error>, marshal: Command -> Option<Error>)
      ensures this.storage == storage && this.pusher == pusher
      ensures this.decode == decode && this.marshal == marshal
      ensures calls == []
    {
      this.storage := storage;
      this.pusher := pusher;
      this.decode := decode;
      this.marshal := marshal;
      calls := [];
    }

    /**
     * What EnqueueCommand does, seen by a caller that wraps its error with
     * `msgs`: decode, then persist, then push to the same hosts; a failure
     * at a step returns its error and skips the later steps.
     */
    ghost predicate Enqueued(hostUUIDs: seq<string>, cmd: Command, userID: Option<nat>, fleetOwned: bool,
                             before: seq<Call>, after: seq<Call>, msgs: seq<string>, err: Option<Error>)
    {
      match decode(cmd)
      case Some(bad) => after == before && err == WrapAll(Some(bad), msgs + ["decoding command"])
      case None =>
        var stored := storage.enqueueCommand(hostUUIDs, cmd, userID, fleetOwned);
        var enqueue := Call.EnqueueCommand(hostUUIDs, cmd, userID, fleetOwned);
        if stored.Some? then
          after == before + [enqueue] && err == WrapAll(stored, msgs + ["enqueuing command"])
        else
          after == before + [enqueue, Push(hostUUIDs)] &&
          Notified(pusher.push(hostUUIDs), msgs + ["sending notifications"], err)
    }

    lemma EnqueuedWrapped(hostUUIDs: seq<string>, cmd: Command, userID: Option<nat>, fleetOwned: bool,
                          before: seq<Call>, after: seq<Call>, msgs: seq<string>, err: Option<Error>, msg: string)
      requires Enqueued(hostUUIDs, cmd, userID, fleetOwned, before, after, msgs, err)
      ensures Enqueued(hostUUIDs, cmd, userID, fleetOwned, before, after, [msg] + msgs, Wrap(err, msg))
    {
      assert ([msg] + msgs + ["decoding command"])[1..] == msgs + ["decoding command"];
      assert ([msg] + msgs + ["enqueuing command"])[1..] == msgs + ["enqueuing command"];
      if decode(cmd).None? && storage.enqueueCommand(hostUUIDs, cmd, userID, fleetOwned).None? {
        NotifiedWrapped(pusher.push(hostUUIDs), msgs + ["sending notifications"], err, msg);
        assert [msg] + (msgs + ["sending notifications"]) == [msg] + msgs + ["sending notifications"];
      }
    }

    /**
     * The order EnqueueCommand keeps: nothing is called when decoding fails;
     * otherwise the storage is called first; the push happens exactly when
     * the storage call succeeded, with the same host list, and nothing
     * follows it; a nil result means the command was stored and pushed to
     * every host without a delivery failure.
     */
    lemma EnqueueOrder(hostUUIDs: seq<string>, cmd: Command, userID: Option<nat>, fleetOwned: bool,
                       before: seq<Call>, after: seq<Call>, msgs: seq<string>, err: Option<Error>)
      requires Enqueued(hostUUIDs, cmd, userID, fleetOwned, before, after, msgs, err)
      ensures |before| <= |after| && after[..|before|] == before
      ensures decode(cmd).Some? ==> after == before && err.Some?
      ensures decode(cmd).None? ==> |after| > |before| && after[|before|] == Call.EnqueueCommand(hostUUIDs, cmd, userID, fleetOwned)
      ensures (exists i :: |before| <= i < |after| && after[i].Push?) <==>
              decode(cmd).None? && storage.enqueueCommand(hostUUIDs, cmd, userID, fleetOwned).None?
      ensures forall i :: |before| <= i < |after| && after[i].Push? ==>
              i == |after| - 1 && after[i].hostUUIDs == hostUUIDs
      ensures err.None? ==>
                decode(cmd).None? && storage.enqueueCommand(hostUUIDs, cmd, userID, fleetOwned).None? &&
                pusher.push(hostUUIDs).err.None? && FailedUUIDs(pusher.push(hostUUIDs).responses) == {}
    {
      if decode(cmd).None? && storage.enqueueCommand(hostUUIDs, cmd, userID, fleetOwned).None? {
        assert after[|after| - 1].Push?;
      }
    }

    method GetProfileCreator(profIdent: string) returns (c: Creator)
      modifies this
      ensures calls == old(calls) + [GetProfileUserID(profIdent)]
      ensures c == ProfileCreator(storage.getProfileUserID(profIdent))
    {
      var lookup := storage.getProfileUserID(profIdent);
      calls := calls + [GetProfileUserID(profIdent)];
      c := ProfileCreator(lookup);
    }

    method SendNotifications(hostUUIDs: seq<string>) returns (err: Option<Error>)
      modifies this
      ensures calls == old(calls) + [Push(hostUUIDs)]
      ensures Notified(pusher.push(hostUUIDs), [], err)
      ensures pusher.push(hostUUIDs).err.None? ==> (err.None? <==> FailedUUIDs(pusher.push(hostUUIDs).responses) == {})
      ensures pusher.push(hostUUIDs).err.None? && err.Some? ==> err.value.Delivery? && StatusCode(err.value) == BadGateway
    {
      var reply := pusher.push(hostUUIDs);
      calls := calls + [Push(hostUUIDs)];
      if reply.err.Some? {
        return Some(Wrapped("commander push", reply.err.value));
      }
      var failed := CollectFailed(reply.responses);
      if |failed| > 0 {
        assert failed[0] in FailedUUIDs(reply.responses);
        return Some(Delivery(failed, reply.err));
      }
      return None;
    }

    method EnqueueCommand(hostUUIDs: seq<string>, rawCommand: Command, userID: Option<nat>, fleetOwned: bool)
      returns (err: Option<Error>)
      modifies this
      ensures Enqueued(hostUUIDs, rawCommand, userID, fleetOwned, old(calls), calls, [], err)
    {
      var bad := decode(rawCommand);
      if bad.Some? {
        return Some(Wrapped("decoding command", bad.value));
      }
      var stored := storage.enqueueCommand(hostUUIDs, rawCommand, userID, fleetOwned);
      calls := calls + [Call.EnqueueCommand(hostUUIDs, rawCommand, userID, fleetOwned)];
      if stored.Some? {
        return Some(Wrapped("enqueuing command", stored.value));
      }
      var pushErr := SendNotifications(hostUUIDs);
      NotifiedWrapped(pusher.push(hostUUIDs), [], pushErr, "sending notifications");
      err := Wrap(pushErr, "sending notifications");
    }

    method InstallProfile(hostUUIDs: seq<string>, profile: Bytes, uuid: string, profIdent: string)
      returns (err: Option<Error>)
      modifies this
      ensures var creator := ProfileCreator(storage.getProfileUserID(profIdent));
              var lookedUp := old(calls) + [GetProfileUserID(profIdent)];
              if creator.err.Some? then
                calls == lookedUp && err == Some(Wrapped("commander install profile get user id", creator.err.value))
              else
                Enqueued(hostUUIDs, Command.InstallProfile(uuid, profile), creator.userID, creator.fleetInitiated,
                         lookedUp, calls, ["commander install profile"], err)
    {
      var cmd := Command.InstallProfile(uuid, profile);
      var creator := GetProfileCreator(profIdent);
      if creator.err.Some? {
        return Some(Wrapped("commander install profile get user id", creator.err.value));
      }
      ghost var lookedUp := calls;
      var e := EnqueueCommand(hostUUIDs, cmd, creator.userID, creator.fleetInitiated);
      EnqueuedWrapped(hostUUIDs, cmd, creator.userID, creator.fleetInitiated, lookedUp, calls, [], e, "commander install profile");
      err := Wrap(e, "commander install profile");
    }

    method RemoveProfile(hostUUIDs: seq<string>, profileIdentifier: string, uuid: string)
      returns (err: Option<Error>)
      modifies this
      ensures var creator := ProfileCreator(storage.getProfileUserID(profileIdentifier));
              var lookedUp := old(calls) + [GetProfileUserID(profileIdentifier)];
              if creator.err.Some? then
                calls == lookedUp && err == Some(Wrapped("commander remove profile get user id", creator.err.value))
              else
                Enqueued(hostUUIDs, Command.RemoveProfile(uuid, profileIdentifier), creator.userID, creator.fleetInitiated,
                         lookedUp, calls, ["commander remove profile"], err)
    {
      var cmd := Command.RemoveProfile(uuid, profileIdentifier);
      var creator := GetProfileCreator(profileIdentifier);
      if creator.err.Some? {
        return Some(Wrapped("commander remove profile get user id", creator.err.value));
      }
      ghost var lookedUp := calls;
      var e := EnqueueCommand(hostUUIDs, cmd, creator.userID, creator.fleetInitiated);
      EnqueuedWrapped(hostUUIDs, cmd, creator.userID, creator.fleetInitiated, lookedUp, calls, [], e, "commander remove profile");
      err := Wrap(e, "commander remove profile");
    }

    /** `pin` is the freshly generated PIN (GenerateRandomPin is not part of this model). */
    method DeviceLock(host: Host, uuid: string, pin: string) returns (err: Option<Error>)
      modifies this
      ensures var cmd := Command.DeviceLock(uuid, pin);
              match decode(cmd)
              case Some(bad) => calls == old(calls) && err == Some(Wrapped("decoding command", bad))
              case None =>
                var stored := storage.enqueueDeviceLockCommand(host, cmd, pin);
                var enqueue := EnqueueDeviceLockCommand(host, cmd, pin);
                if stored.Some? then
                  calls == old(calls) + [enqueue] && err == Some(Wrapped("enqueuing for DeviceLock", stored.value))
                else
                  calls == old(calls) + [enqueue, Push([host.uuid])] &&
                  Notified(pusher.push([host.uuid]), ["sending notifications for DeviceLock"], err)
    {
      var cmd := Command.DeviceLock(uuid, pin);
      var bad := decode(cmd);
      if bad.Some? {
        return Some(Wrapped("decoding command", bad.value));
      }
      var stored := storage.enqueueDeviceLockCommand(host, cmd, pin);
      calls := calls + [EnqueueDeviceLockCommand(host, cmd, pin)];
      if stored.Some? {
        return Some(Wrapped("enqueuing for DeviceLock", stored.value));
      }
      var pushErr := SendNotifications([host.uuid]);
      NotifiedWrapped(pusher.push([host.uuid]), [], pushErr, "sending notifications for DeviceLock");
      err := Wrap(pushErr, "sending notifications for DeviceLock");
    }

    /** Unlike DeviceLock, the PIN travels only inside the command: the storage call does not receive it. */
    method EraseDevice(host: Host, uuid: string, pin: string) returns (err: Option<Error>)
      modifies this
      ensures var cmd := Command.EraseDevice(uuid, pin, "Default");
              match decode(cmd)
              case Some(bad) => calls == old(calls) && err == Some(Wrapped("decoding command", bad))
              case None =>
                var stored := storage.enqueueDeviceWipeCommand(host, cmd);
                var enqueue := EnqueueDeviceWipeCommand(host, cmd);
                if stored.Some? then
                  calls == old(calls) + [enqueue] && err == Some(Wrapped("enqueuing for DeviceWipe", stored.value))
                else
                  calls == old(calls) + [enqueue, Push([host.uuid])] &&
                  Notified(pusher.push([host.uuid]), ["sending notifications for DeviceWipe"], err)
    {
      var cmd := Command.EraseDevice(uuid, pin, "Default");
      var bad := decode(cmd);
      if bad.Some? {
        return Some(Wrapped("decoding command", bad.value));
      }
      var stored := storage.enqueueDeviceWipeCommand(host, cmd);
      calls := calls + [EnqueueDeviceWipeCommand(host, cmd)];
      if stored.Some? {
        return Some(Wrapped("enqueuing for DeviceWipe", stored.value));
      }
      var pushErr := SendNotifications([host.uuid]);
      NotifiedWrapped(pusher.push([host.uuid]), [], pushErr, "sending notifications for DeviceWipe");
      err := Wrap(pushErr, "sending notifications for DeviceWipe");
    }

    method InstallEnterpriseApplication(hostUUIDs: seq<string>, uuid: string, manifestURL: string)
      returns (err: Option<Error>)
      modifies this
      ensures Enqueued(hostUUIDs, Command.InstallEnterpriseApplication(uuid, manifestURL), None, true, old(calls), calls, [], err)
    {
      err := EnqueueCommand(hostUUIDs, Command.InstallEnterpriseApplication(uuid, manifestURL), None, true);
    }

    method InstallEnterpriseApplicationWithEmbeddedManifest(hostUUIDs: seq<string>, uuid: string, manifest: Manifest)
      returns (err: Option<Error>)
      modifies this
      ensures var cmd := Command.InstallEnterpriseApplicationWithManifest(uuid, manifest);
              match marshal(cmd)
              case Some(bad) => calls == old(calls) && err == Some(Wrapped("marshal command payload plist", bad))
              case None => Enqueued(hostUUIDs, cmd, None, false, old(calls), calls, [], err)
    {
      var cmd := Command.InstallEnterpriseApplicationWithManifest(uuid, manifest);
      var bad := marshal(cmd);
      if bad.Some? {
        return Some(Wrapped("marshal command payload plist", bad.value));
      }
      err := EnqueueCommand(hostUUIDs, cmd, None, false);
    }

    method AccountConfiguration(hostUUIDs: seq<string>, uuid: string, fullName: string, userName: string)
      returns (err: Option<Error>)
      modifies this
      ensures Enqueued(hostUUIDs, Command.AccountConfiguration(uuid, fullName, userName, true), None, true,
                       old(calls), calls, [], err)
    {
      err := EnqueueCommand(hostUUIDs, Command.AccountConfiguration(uuid, fullName, userName, true), None, true);
    }
  }
}
