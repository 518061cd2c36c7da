/**
 * The suspension probe of MainActivity.checkAppsSuspendedStatus: a selected
 * package counts against "all suspended" only when it is installed and its
 * ApplicationInfo flags lack FLAG_SUSPENDED; packages that are not installed
 * are skipped.
 */
module PackageStatus {

  /** android.content.pm.ApplicationInfo.FLAG_SUSPENDED, bit 30 of the flags word. */
  const FLAG_SUSPENDED: bv32 := 0x4000_0000

  predicate IsSuspended(flags: bv32)
  {
    flags & FLAG_SUSPENDED != 0
  }

  /**
   * `apps` maps each installed package to its ApplicationInfo flags; a package
   * missing from it is one for which getApplicationInfo throws.
   */
  predicate AllInstalledSuspended(pkgs: seq<string>, apps: map<string, bv32>)
  {
    forall k :: 0 <= k < |pkgs| && pkgs[k] in apps ==> IsSuspended(apps[pkgs[k]])
  }

  /**
   * The for loop of checkAppsSuspendedStatus: `continue` past a package that is
   * not installed, `break` with false at the first installed package that is
   * not suspended.
   */
  method ScanSuspended(pkgs: seq<string>, apps: map<string, bv32>) returns (allSuspended: bool)
    ensures allSuspended <==> AllInstalledSuspended(pkgs, apps)
    // A selection none of whose packages is installed reads as all suspended.
    ensures (forall k :: 0 <= k < |pkgs| ==> pkgs[k] !in apps) ==> allSuspended
  {
    allSuspended := true;
    var i := 0;
    while i < |pkgs|
      invariant 0 <= i <= |pkgs|
      invariant allSuspended
      invariant AllInstalledSuspended(pkgs[..i], apps)
    {
      var pkg := pkgs[i];
      if pkg !in apps {
        i := i + 1;
        continue;
      }
      if apps[pkg] & FLAG_SUSPENDED == 0 {
        allSuspended := false;
        break;
      }
      assert pkgs[..i + 1] == pkgs[..i] + [pkg];
      i := i + 1;
    }
    if allSuspended {
      assert pkgs[..i] == pkgs;
    }
  }
}
