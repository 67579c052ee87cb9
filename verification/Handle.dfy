/** What tells cgroups apart. */
module Handle {
  // A cgroup: a restarted container gets a new inode, so a new identity.
  datatype Identity = Identity(path: string, device: nat, inode: nat)
}
