# Maintenance activity base class (fc-nixos agent)

This project models the base class of the maintenance activities that the
fc-nixos node agent runs as request payloads, together with the `RebootType`
enumeration (`WARM = 1`, `COLD = 2`).

An activity keeps its state as instance attributes. The model holds them in
the field `attrs` of class `MaintenanceActivity.Activity`, a map from
attribute name to value, which stands for Python's `__dict__`. Six outcome
fields are class-level defaults: `stdout`, `stderr`, `returncode`, `duration`,
`request` and `reboot_needed`. `Lookup` reads an attribute the way Python
does. An instance attribute wins. Otherwise one of the six defaults reads as
`None`. Any other data attribute name raises `AttributeError`.

What the owning request serialises between runs is `__getstate__`. It is a copy
of the instance dictionary with the `"log"` key deleted. `State` defines it
declaratively. `Activity.GetState` does the copy and the delete, and it is
proved to give the same result. Only the logger is stripped. The `request`
backpointer stays in the serialised state if it was assigned, and the class
defaults appear only once they have been assigned.

The calls an activity receives are the `Call` datatype, and `Apply`/`Replay`
give the instance dictionary after them. Each mutating method is proved to
leave `attrs` equal to `Apply` of the old dictionary. The lemmas then state
what the owner relies on. Attaching a logger and running the load and dump
hooks, in any number and order, never changes the serialised state. Base
`run` changes nothing but `returncode`.

Values are a small datatype. Loggers and the request backpointer are opaque
handles, and the float `duration` is a Dafny `real`.

The class comment on `request` calls it a backpointer that the request sets.
`__getstate__` deletes only `"log"`, so an assigned `request` stays in the
serialised state (`LookupAfterSerialising`).

## Model

| member | source | states |
|---|---|---|
| `MaintenanceActivity.RebootType.EnumValue` | pkgs/fc/agent/fc/maintenance/activity/__init__.py:5-7 | each reboot kind has an enumeration value of 1 or 2 |
| `MaintenanceActivity.RebootTypeOf` | pkgs/fc/agent/fc/maintenance/activity/__init__.py:5-7 | `RebootType(n)` finds a member exactly when n is 1 or 2, that member has value n, and any other n is a ValueError |
| `MaintenanceActivity.RebootTypeRoundTrip` | pkgs/fc/agent/fc/maintenance/activity/__init__.py:5-7 | WARM is 1 and COLD is 2, looking a member up by its own value gives it back, and the two values are distinct |
| `MaintenanceActivity.Lookup` | pkgs/fc/agent/fc/maintenance/activity/__init__.py:24-29 | an attribute read succeeds exactly for instance attributes and the six class defaults; instance values win and unassigned defaults read None; any other data attribute name is an AttributeError |
| `MaintenanceActivity.State` | pkgs/fc/agent/fc/maintenance/activity/__init__.py:39-44 | the serialisable state never holds `log`; it holds every other instance attribute with the same value, and no key beyond them |
| `MaintenanceActivity.StateIgnoresLogger` | pkgs/fc/agent/fc/maintenance/activity/__init__.py:39-47 | storing any logger under `log` leaves the serialisable state unchanged |
| `MaintenanceActivity.StateIdempotent` | pkgs/fc/agent/fc/maintenance/activity/__init__.py:39-44 | applying the state reduction to an already reduced state changes nothing |
| `MaintenanceActivity.LookupAfterSerialising` | pkgs/fc/agent/fc/maintenance/activity/__init__.py:24-44 | after serialising, every attribute other than `log` (the `request` backpointer included) reads as before, and `log` no longer exists |
| `MaintenanceActivity.Apply` | pkgs/fc/agent/fc/maintenance/activity/__init__.py:46-76 | set_up_logging makes `log` read the logger, run makes `returncode` read 0, load and dump change nothing, and each call adds only its own key |
| `MaintenanceActivity.TransientCallsKeepState` | pkgs/fc/agent/fc/maintenance/activity/__init__.py:39-76 | any sequence of set_up_logging, load and dump calls leaves the serialisable state as it was |
| `MaintenanceActivity.RunOnlySetsReturncode` | pkgs/fc/agent/fc/maintenance/activity/__init__.py:49-62 | base run leaves every attribute other than `returncode` reading as before, and its serialisable state is the old one with `returncode = 0` |
| `MaintenanceActivity.Activity.constructor` | pkgs/fc/agent/fc/maintenance/activity/__init__.py:24-37 | a fresh activity has no instance attributes, reads None for all six outcome fields and has an empty serialisable state |
| `MaintenanceActivity.Activity.GetState` | pkgs/fc/agent/fc/maintenance/activity/__init__.py:39-44 | copying the dictionary and deleting `log` from the copy yields exactly `State` of the attributes, and the activity is not changed |
| `MaintenanceActivity.Activity.SetUpLogging` | pkgs/fc/agent/fc/maintenance/activity/__init__.py:46-47 | afterwards `log` reads the given logger, every other attribute reads as before, and the serialisable state is unchanged |
| `MaintenanceActivity.Activity.Run` | pkgs/fc/agent/fc/maintenance/activity/__init__.py:49-62 | afterwards `returncode` reads 0 and every other attribute reads as before |
| `MaintenanceActivity.Activity.Load` | pkgs/fc/agent/fc/maintenance/activity/__init__.py:64-72 | the base load hook leaves all attributes unchanged |
| `MaintenanceActivity.Activity.Dump` | pkgs/fc/agent/fc/maintenance/activity/__init__.py:74-76 | the base dump hook leaves all attributes unchanged |
| `MaintenanceActivity.Activity.SetAttr` | pkgs/fc/agent/fc/maintenance/activity/__init__.py:24-29 | assigning an attribute (as the request does for its backpointer) makes it read the new value, and outside `log` the serialisable state gains exactly that entry |

## Left out

- The YAML encoding of the state is not modelled. Only the map that `__getstate__` hands to the serialiser is.
- Loggers are opaque handles. Their behaviour belongs to a foreign library.
- The request state machine, the runner, the reboot executor and the classification of return codes are not part of this model. The `EXIT_*` constants live in `state.py`, which is not part of this model, so no return code is classified here.
- Setting the request directory as the working directory, and the rule that `run` must not destroy `request.yaml`, are file-system effects outside the object.
- Concrete activity subclasses are not part of this model. Their work is shell and system I/O.
- MaintenanceActivity.Lookup: raises AttributeError for every name the class defines outside the six outcome defaults. That covers its methods (`run`, `load` and so on), `__doc__`, `__module__`, `__dict__`, `__class__` and the attributes inherited from `object`, all of which Python finds. The model covers data attributes only.
- Attribute values are limited to the `Value` datatype. Arbitrary Python objects that a subclass might store are not represented.
- Packaging metadata (`pkgs/fc/agent/setup.py`) holds no behaviour.
