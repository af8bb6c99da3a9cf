/** One relay instance reacting to lifecycle events: its hub and its relay-data registry close
    sockets of a device according to the durable generation. */
module RelayServers {
  import opened Options
  import H = HubProtocol
  import I = HubInvariants
  import D = RelayDataTable
  import R = RelayDataRuns
  import opened Hubs
  import opened RelayDataRegistries
  import opened DeviceEvents
  import opened ReconcileSweep

  class RelayServer {
    const hub: Hub
    const data: RelayDataRegistry

    ghost predicate Valid()
      reads hub, hub.attempts, hub.attempts.expiries, hub.gates, hub.gates.expiries, data
    {
      hub.Valid() && I.HubInv(hub.State()) && R.TableInv(data.State())
    }

    constructor (hub: Hub, data: RelayDataRegistry)
      requires hub.Valid() && I.HubInv(hub.State()) && R.TableInv(data.State())
      ensures this.hub == hub && this.data == data && Valid()
    {
      this.hub, this.data := hub, data;
    }

    /** Data sockets first, then the control socket, all before the cutoff. */
    method CloseBefore(device: DeviceId, cutoff: int) returns (ghost leaseOrder: seq<D.LeaseId>, ghost order: seq<D.EndpointId>)
      requires Valid()
      modifies hub, hub.attempts, hub.attempts.expiries, hub.gates, hub.gates.expiries, data
      ensures Valid()
      ensures hub.State() == H.DisconnectBeforeStep(old(hub.State()), device, cutoff)
      ensures D.Enabled(old(data.State()), D.DoCloseDevice(device, cutoff, leaseOrder, order))
      ensures data.State() == D.Step(old(data.State()), D.DoCloseDevice(device, cutoff, leaseOrder, order))
    {
      hide I.HubInv, R.TableInv, D.Enabled, D.Step, H.DisconnectBeforeStep;
      ghost var h, t := hub.State(), data.State();
      var targets;
      targets, leaseOrder, order := data.CloseDeviceBeforeGeneration(device, cutoff);
      hub.DisconnectDeviceBeforeGeneration(device, cutoff);
      R.TableStep(t, D.DoCloseDevice(device, cutoff, leaseOrder, order));
      I.HubStep(h, hub.Caps(), H.Socket(H.DisconnectBefore(device, cutoff)), hub.State(), None);
    }

    method HandleKicked(device: DeviceId, generation: int, read: Read)
      returns (ghost leaseOrder: seq<D.LeaseId>, ghost order: seq<D.EndpointId>)
      requires Valid()
      modifies hub, hub.attempts, hub.attempts.expiries, hub.gates, hub.gates.expiries, data
      ensures Valid()
      ensures hub.State() == H.DisconnectBeforeStep(old(hub.State()), device, KickCutoff(generation, read))
      ensures D.Enabled(old(data.State()), D.DoCloseDevice(device, KickCutoff(generation, read), leaseOrder, order))
      ensures data.State() == D.Step(old(data.State()), D.DoCloseDevice(device, KickCutoff(generation, read), leaseOrder, order))
    {
      hide I.HubInv, R.TableInv, D.Enabled, D.Step, H.DisconnectBeforeStep;
      var cutoff := generation;
      if read.Present? && read.generation > cutoff {
        cutoff := read.generation;
      }
      leaseOrder, order := CloseBefore(device, cutoff);
    }

    method HandleRevoked(device: DeviceId, generation: int, read: Read)
      returns (ghost leaseOrder: seq<D.LeaseId>, ghost order: seq<D.EndpointId>)
      requires Valid()
      modifies hub, hub.attempts, hub.attempts.expiries, hub.gates, hub.gates.expiries, data
      ensures Valid()
      ensures hub.State() == H.DisconnectBeforeStep(old(hub.State()), device, RevokeCutoff(generation, read))
      ensures D.Enabled(old(data.State()), D.DoCloseDevice(device, RevokeCutoff(generation, read), leaseOrder, order))
      ensures data.State() == D.Step(old(data.State()), D.DoCloseDevice(device, RevokeCutoff(generation, read), leaseOrder, order))
    {
      hide I.HubInv, R.TableInv, D.Enabled, D.Step, H.DisconnectBeforeStep;
      if read.Present? && generation > 0 && read.generation > generation {
        leaseOrder, order := CloseBefore(device, read.generation);
        return;
      }
      if read.Failed? && generation > 0 {
        leaseOrder, order := CloseBefore(device, generation + 1);
        return;
      }
      leaseOrder, order := CloseBefore(device, 0);
    }

    /** One device of a sweep that began with the sockets `h0`, `t0` and has seen `seen`. */
    method ReconcileDevice(device: DeviceId, answer: Read, ghost h0: H.HubState, ghost t0: D.Table,
                           ghost seen: set<DeviceId>, ghost answers: map<DeviceId, Read>)
      requires Valid() && R.TableInv(t0) && device in answers && answers[device] == answer
      requires SweptExactly(h0, t0, hub.State(), data.State(), seen, answers)
      modifies hub, hub.attempts, hub.attempts.expiries, hub.gates, hub.gates.expiries, data
      ensures Valid()
      ensures SweptExactly(h0, t0, hub.State(), data.State(), seen + {device}, answers)
    {
      hide I.HubInv, R.TableInv, D.Enabled, D.Step, H.DisconnectBeforeStep, SweptExactly;
      ghost var h, t := hub.State(), data.State();
      if answer.Failed? {
        SkipFailed(h0, t0, h, t, seen, answers, device);
        return;
      }
      var cutoff := if answer.Present? then answer.generation else 0;
      ghost var leaseOrder, order := CloseBefore(device, cutoff);
      Visit(h0, t0, h, t, D.DoCloseDevice(device, cutoff, leaseOrder, order), seen, answers);
    }

    /** The devices with a control socket, registered or pending, or with data sockets here. */
    method LocalDeviceIds() returns (devices: set<DeviceId>)
      requires Valid()
      ensures devices == LocalDevices(hub.State(), data.State())
    {
      hide I.HubInv, R.TableInv;
      var ids := data.DeviceIds();
      devices := hub.peers.Keys + hub.pending.Keys + ids;
    }

    /** One sweep over the devices with local sockets. `answers` is what the store says of each; a
        device without an answer ends the sweep early. Of the visited devices exactly the control
        sockets and leases older than the answer are gone, and exactly the endpoints that are older
        or linked to an older one; everything else is left. A completed sweep has visited every
        local device, so no socket older than a successful answer remains, and none if absent. */
    method Reconcile(answers: map<DeviceId, Read>) returns (completed: bool, ghost seen: set<DeviceId>)
      requires Valid()
      modifies hub, hub.attempts, hub.attempts.expiries, hub.gates, hub.gates.expiries, data
      ensures Valid()
      ensures seen <= LocalDevices(old(hub.State()), old(data.State())) * answers.Keys
      ensures SweptExactly(old(hub.State()), old(data.State()), hub.State(), data.State(), seen, answers)
      ensures completed <==> LocalDevices(old(hub.State()), old(data.State())) <= answers.Keys
      ensures completed ==> seen == LocalDevices(old(hub.State()), old(data.State()))
      ensures completed ==> NoneStale(hub.State(), data.State(), answers)
    {
      hide I.HubInv, R.TableInv, NoneStale, SweptExactly, LocalDevices, Hub.State, Hub.Valid, RelayDataRegistry.State;
      ghost var h0, t0 := hub.State(), data.State();
      var devices := LocalDeviceIds();
      var rest := devices;
      seen := {};
      NothingSwept(h0, t0, answers);
      while rest != {}
        invariant rest <= devices && Valid() && seen == devices - rest && seen <= answers.Keys
        invariant SweptExactly(h0, t0, hub.State(), data.State(), seen, answers)
        decreases rest
      {
        var d :| d in rest;
        if d !in answers {
          return false, seen;
        }
        ReconcileDevice(d, answers[d], h0, t0, seen, answers);
        rest := rest - {d};
        seen := seen + {d};
      }
      assert seen == devices;
      SweptLeavesNoneStale(h0, t0, hub.State(), data.State(), answers);
      completed := true;
    }
  }
}
