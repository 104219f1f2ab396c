/** Replacing the system disk of a VM by a clone of another image. */
module SysDisk {
  import opened VmBuilder

  /** The parts of the VM row that name the system disk and its image. */
  datatype DiskRow = DiskRow(disk: string, pool: nat, image: nat)

  /** What the domain boots from. */
  datatype Domain = Domain(boot: ImageId, image: nat)

  /** A system image: where clones of it go and what they hold. */
  datatype SystemImage = SystemImage(id: nat, pool: nat, content: nat)

  datatype ChangeWorks = ChangeWorks(ready: bool, rename: bool, build: bool, clone: bool, define: bool, save: bool)

  function Archived(name: string, time: string): string { "x_" + time + "_" + name }

  predicate StartsWithX(name: string) { |name| >= 2 && name[..2] == "x_" }

  class SysDiskChanger {
    var images: map<ImageId, nat>
    var domain: Domain
    var row: DiskRow

    constructor (images: map<ImageId, nat>, domain: Domain, row: DiskRow)
      ensures this.images == images && this.domain == domain && this.row == row
    {
      this.images, this.domain, this.row := images, domain, row;
    }

    method Rename(pool: nat, name: string, newName: string, works: bool) returns (ok: bool)
      modifies this`images
      ensures ok == (works && ImageId(pool, name) in old(images) && ImageId(pool, newName) !in old(images))
      ensures images == if ok then (old(images) - {ImageId(pool, name)})[
                                     ImageId(pool, newName) := old(images)[ImageId(pool, name)]]
                        else old(images)
    {
      if !works || !CanRename(images, pool, name, newName) {
        return false;
      }
      images := Renamed(images, pool, name, newName);
      return true;
    }

    /** Renames the system disk to its archive name; a name that already starts with `x_` is kept. */
    method RenameSysDiskDelete(time: string, works: bool) returns (ok: bool, deleted: string)
      modifies this`images
      ensures var kept := |row.disk| >= 2 && row.disk[0] == 'x' && row.disk[1] == '_';
        var archive := "x_" + time + "_" + row.disk;
        var disk := ImageId(row.pool, row.disk);
        && ok == (kept || (works && disk in old(images) && ImageId(row.pool, archive) !in old(images)))
        && deleted == (if ok && !kept then archive else row.disk)
        && images == if ok && !kept then (old(images) - {disk})[ImageId(row.pool, archive) := old(images)[disk]]
                     else old(images)
    {
      if StartsWithX(row.disk) {
        return true, row.disk;
      }
      deleted := Archived(row.disk, time);
      ok := Rename(row.pool, row.disk, deleted, works);
      if !ok {
        deleted := row.disk;
      }
    }

    /** Puts the VM on a clone of `image`. A clone that already exists is taken for the new one. */
    method ResetImageCreateVm(image: SystemImage, w: ChangeWorks) returns (ok: bool)
      modifies this
      ensures var before, target := old(images), ImageId(image.pool, old(row).disk);
        && ok == (w.build && (w.clone || target in before) && w.define && w.save)
        && (ok ==> && images == (if target in before then before else before[target := image.content])
                   && domain == Domain(target, image.id) && row == old(row).(pool := image.pool, image := image.id))
        && (!ok ==> && domain == old(domain) && row == old(row)
                    && images == if w.build && (w.clone || target in before) then before - {target} else before)
    {
      var target := Target(row, image);
      if !w.build {
        return false;
      }
      if target !in images {
        if !w.clone {
          return false;
        }
        images := images[target := image.content];
      }
      var oldDomain := domain;
      ok := w.define;
      if ok {
        domain := Domain(target, image.id);
        ok := w.save;
        if ok {
          row := row.(pool := image.pool, image := image.id);
        } else {
          domain := oldDomain;
        }
      }
      if !ok {
        images := images - {target};
        assert images == old(images) - {target};
      }
    }

    /** Replaces the system disk. `kept` says that the old disk keeps its name, `taken` that the name
        of the clone is still in use once the old disk is set aside. A failure leaves images, domain and
        row as they were, except that past the clone step it loses the image under a name that was
        taken. Success puts the VM on the image under that name, which is a fresh clone unless the name
        was taken, with the old content kept under the archive name. */
    method ChangeSysDisk(image: SystemImage, time: string, w: ChangeWorks) returns (ok: bool)
      requires ImageId(row.pool, row.disk) in images
      modifies this
      ensures var before, disk := old(images), ImageId(old(row).pool, old(row).disk);
        var kept := |disk.name| >= 2 && disk.name[0] == 'x' && disk.name[1] == '_';
        var archive, target := ImageId(disk.pool, "x_" + time + "_" + disk.name), ImageId(image.pool, disk.name);
        var taken := if image.pool == disk.pool then kept else target in before;
        var reached := w.ready && w.build && (kept || (w.rename && archive !in before)) && (w.clone || taken);
        && (ok <==> reached && w.define && w.save)
        && (!ok ==> && domain == old(domain) && row == old(row)
                    && images == if reached && taken then before - {target} else before)
        && (ok ==>
              && row == old(row).(pool := image.pool, image := image.id) && domain == Domain(target, image.id)
              && (var aside := if kept then before else (before - {disk})[archive := before[disk]];
                  images == if taken then aside else aside[target := image.content]))
    {
      if !w.ready {
        return false;
      }
      var pool, disk := row.pool, row.disk;
      var deleted;
      ok, deleted := RenameSysDiskDelete(time, w.rename);
      if !ok {
        return false;
      }
      TargetAfterAside(old(images), old(row), image, time);
      AsideUndone(old(images), old(row), image, time);
      ok := ResetImageCreateVm(image, w);
      if !ok {
        var undone := Rename(pool, deleted, disk, true);
      }
    }
  }

  predicate CanRename(images: map<ImageId, nat>, pool: nat, name: string, newName: string) {
    ImageId(pool, name) in images && ImageId(pool, newName) !in images
  }

  function Renamed(images: map<ImageId, nat>, pool: nat, name: string, newName: string): map<ImageId, nat>
    requires ImageId(pool, name) in images
  {
    (images - {ImageId(pool, name)})[ImageId(pool, newName) := images[ImageId(pool, name)]]
  }

  function Target(row: DiskRow, image: SystemImage): ImageId { ImageId(image.pool, row.disk) }

  function ArchiveId(row: DiskRow, time: string): ImageId {
    ImageId(row.pool, if StartsWithX(row.disk) then row.disk else Archived(row.disk, time))
  }

  /** The images with the old system disk set aside. */
  function Aside(images: map<ImageId, nat>, row: DiskRow, time: string): map<ImageId, nat>
  {
    if StartsWithX(row.disk) || ImageId(row.pool, row.disk) !in images then images
    else Renamed(images, row.pool, row.disk, Archived(row.disk, time))
  }

  /** The name for the new clone is free once the old disk is out of the way. */
  predicate FreshTarget(images: map<ImageId, nat>, row: DiskRow, image: SystemImage) {
    if image.pool == row.pool then !StartsWithX(row.disk) else Target(row, image) !in images
  }

  /** The same on the fields. */
  lemma AsideOnFields(images: map<ImageId, nat>, row: DiskRow, image: SystemImage, time: string)
    requires ImageId(row.pool, row.disk) in images
    ensures var disk, kept := ImageId(row.pool, row.disk), |row.disk| >= 2 && row.disk[0] == 'x' && row.disk[1] == '_';
      var archive := ImageId(row.pool, "x_" + time + "_" + row.disk);
      && Aside(images, row, time) == (if kept then images else (images - {disk})[archive := images[disk]])
      && ArchiveId(row, time) == (if kept then disk else archive)
      && Target(row, image) == ImageId(image.pool, row.disk)
      && (FreshTarget(images, row, image)
          <==> if image.pool == row.pool then !kept else ImageId(image.pool, row.disk) !in images)
  {
  }

  lemma ArchiveNameIsNew(name: string, time: string)
    ensures Archived(name, time) != name && StartsWithX(Archived(name, time))
  {
    assert |Archived(name, time)| == |time| + 3 + |name|;
  }

  lemma TargetAfterAside(images: map<ImageId, nat>, row: DiskRow, image: SystemImage, time: string)
    requires ImageId(row.pool, row.disk) in images
    requires StartsWithX(row.disk) || ImageId(row.pool, Archived(row.disk, time)) !in images
    ensures Target(row, image) in Aside(images, row, time) <==> !FreshTarget(images, row, image)
  {
    ArchiveNameIsNew(row.disk, time);
  }

  /** Taking the clone away and renaming back restores the images exactly when the name was free. */
  lemma AsideUndone(images: map<ImageId, nat>, row: DiskRow, image: SystemImage, time: string)
    requires ImageId(row.pool, row.disk) in images
    requires StartsWithX(row.disk) || ImageId(row.pool, Archived(row.disk, time)) !in images
    ensures var a := Aside(images, row, time); var deleted := ArchiveId(row, time).name;
      && (a - {Target(row, image)} == a <==> FreshTarget(images, row, image))
      && ArchiveId(row, time) in a
      && a[ArchiveId(row, time)] == images[ImageId(row.pool, row.disk)]
      && (CanRename(a, row.pool, deleted, row.disk) ==> Renamed(a, row.pool, deleted, row.disk) == images)
      && (!StartsWithX(row.disk) ==> CanRename(a, row.pool, deleted, row.disk))
      && (StartsWithX(row.disk) ==> a == images && !CanRename(a, row.pool, deleted, row.disk))
  {
    ArchiveNameIsNew(row.disk, time);
    TargetAfterAside(images, row, image, time);
    var a := Aside(images, row, time);
    if Target(row, image) !in a { assert a - {Target(row, image)} == a; }
    if !StartsWithX(row.disk) {
      assert Renamed(a, row.pool, Archived(row.disk, time), row.disk) == images;
    }
  }
}
