/** The part of the juju client library the modelled code drives: a
    controller handle that is dialled, disconnected and asked for its
    identity. What the remote side answers is an input of each call. */
module Juju {
  import opened Common

  /** The arguments of one `connect` call on a controller or its connector. */
  datatype Dial = Dial(
    endpoint: string,
    username: string,
    password: string,
    cacert: string,
    /** `max_frame_size`, `retries` and `retry_backoff`; None where the
        caller leaves the library default. */
    maxFrameSize: Option<int>,
    retries: Option<int>,
    retryBackoff: Option<int>)

  /** `juju.controller.Controller`. */
  class Controller {
    const maxFrameSize: int
    /** `controller_uuid` and `controller_name`. */
    var uuid: string
    var name: string
    var connected: bool
    /** Every `connect` call made on this handle, in order. */
    var dials: seq<Dial>
    /** How many times `disconnect` was called. */
    var disconnects: nat

    constructor (maxFrameSize: int)
      ensures this.maxFrameSize == maxFrameSize
      ensures uuid == "" && name == "" && !connected && dials == [] && disconnects == 0
    {
      this.maxFrameSize := maxFrameSize;
      uuid := "";
      name := "";
      connected := false;
      dials := [];
      disconnects := 0;
    }

    predicate IsConnected()
      reads this
    {
      connected
    }

    /** `connect(...)`: `outcome` is what the controller answers; a refused
        dial leaves the handle as it was apart from the record of the call. */
    method Connect(dial: Dial, outcome: Try<()>) returns (r: Try<()>)
      modifies this
      ensures r == outcome
      ensures dials == old(dials) + [dial]
      ensures connected == (outcome.Ok? || old(connected))
      ensures uuid == old(uuid) && name == old(name) && disconnects == old(disconnects)
    {
      dials := dials + [dial];
      if outcome.Ok? {
        connected := true;
      }
      r := outcome;
    }

    method Disconnect()
      modifies this
      ensures !IsConnected() && disconnects == old(disconnects) + 1
      ensures uuid == old(uuid) && name == old(name) && dials == old(dials)
    {
      connected := false;
      disconnects := disconnects + 1;
    }
  }

  /** A call on the remote side that the modelled code makes, in the order
      it makes them; what the remote side answers is an input. */
  datatype Call =
    | ListModels
    | GetModel(model: string)
    | DisconnectModel(model: string)
    | GetUser(username: string)
    | AddUser(username: string, password: string, displayName: string)
    | SetPassword(username: string, password: string)
    | Grant(username: string, acl: string)
    | GrantModel(username: string, modelUuid: string, acl: string)
    | Revoke(username: string, acl: string)
    | RevokeModel(username: string, modelUuid: string, acl: string)
    | DisableUser(username: string)

  /** `juju.user.User`: what `get_user` and `add_user` answer. */
  datatype User = User(username: string, displayName: string)

  /** `juju.application.Application`: its configuration is what
      `set_config` updates and `get_config` reads. */
  class Application {
    var config: map<string, Value>

    constructor (config: map<string, Value>)
      ensures this.config == config
    {
      this.config := config;
    }

    /** `set_config(properties)`: the given options take the given values,
        the others keep theirs. */
    method SetConfig(properties: map<string, Value>)
      modifies this
      ensures config == old(config) + properties
    {
      config := config + properties;
    }

    method GetConfig() returns (r: map<string, Value>)
      ensures r == config
    {
      r := config;
    }
  }

  /** `juju.model.Model`, as `get_model` hands it out. */
  class Model {
    const uuid: string
    /** `model.applications`, by application name. */
    const applications: map<string, Application>

    constructor (uuid: string, applications: map<string, Application>)
      ensures this.uuid == uuid && this.applications == applications
    {
      this.uuid := uuid;
      this.applications := applications;
    }

    /** Each application name has a handle of its own. */
    predicate Distinct()
    {
      forall a, b | a in applications && b in applications && a != b :: applications[a] != applications[b]
    }
  }
}
