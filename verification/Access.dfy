/** What a policy lets a principal's keys run. */
module Access {
  import opened Common
  import opened BucketPolicy
  import opened Permissions

  /** A document lets p run a command: it permits p an action that maps to it. */
  ghost predicate LetsRun(d: Document, p: PrincipalId, c: Command) {
    exists a :: Permits(d, p, a) && Maps(a, c)
  }

  lemma LetsRunMeans(d: Option<Document>, p: PrincipalId, c: Command)
    ensures c in CommandSet(EffectiveSet(d, p)) <==> d.Some? && LetsRun(d.value, p, c)
  {
    CommandSetMeans(EffectiveSet(d, p), c);
    if d.Some? && LetsRun(d.value, p, c) {
      var a :| Permits(d.value, p, a) && Maps(a, c);
      EffectiveMeans(d, p, a);
    }
    if c in CommandSet(EffectiveSet(d, p)) {
      var a :| a in EffectiveSet(d, p) && Maps(a, c);
      EffectiveMeans(d, p, a);
    }
  }
}
