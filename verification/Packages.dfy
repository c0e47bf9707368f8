// Values shared by every part of the model.

module Packages {
  datatype Option<+T> = None | Some(value: T) {
    function GetOr(default: T): T {
      if Some? then value else default
    }
  }

  datatype Kind = Cask | Formula

  datatype Operation = Uninstall | Upgrade

  // One installed package as the inventory reports it. (kind, name) is its
  // identity; every other field is display or policy data.
  datatype Package = Package(
    name: string,
    version: string,
    kind: Kind,
    outdated: bool,
    outdatedKnown: bool,
    latestVersion: string,
    dependency: bool,
    pinned: bool,
    untrusted: bool,
    fullName: string,
    tap: string)

  datatype Key = Key(kind: Kind, name: string)

  function KeyOf(p: Package): Key {
    Key(p.kind, p.name)
  }
}
